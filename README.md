# Plugin RPC, power control and host partition: a Dafny model

This project models three parts of the Integrated Manager for Lustre and proves
properties of them in Dafny.

**Plugin RPC over the `plugin_data` exchange** (`messaging.py`). Each
`(plugin, resource tag)` pair has a request queue and a response queue, named
after their routing keys.

- The broker is a class. Its queues are a map from routing key to a sequence
  of JSON bodies, oldest first. A key is present once its queue has been
  declared. Acknowledging a message removes it.
- Publishing to a key with no queue drops the message, as a direct exchange
  with no bound queue does.
- Time is a counter of idle poll time. `uuid1` is a counter-backed source of
  distinct ids. Each connection opened is logged, so the model can say how
  often `revoke` is called.
- Host liveness for `_wait_for_host` is an oracle sequence of booleans.
- `_drain_all` is a loop proved against the function `Drained`. Each poll
  round hands the next message to the handler. The handler may acknowledge
  it, emit a value or raise.
- The KeyErrors the handlers can raise are modelled:
  - `body['id']` in `receive_all`'s log line;
  - `body['data']` on a matching response;
  - `body['id']` in `revoke`.
- Three behaviours are modelled as written:
  - `plugin_rpc` publishes the bare envelope `{'id': …}` and not the caller's
    request.
  - `receive` ignores its `timeout` argument and always drains with the
    hard-coded 30 seconds.
  - `receive` keeps draining after the first match. It acknowledges every
    message and returns the first match's data. It does not stop at the
    match.

**Power control** (`power_control.py`).

- Pure rules are functions and lemmas:
  - the device type's display name;
  - an outlet's power state;
  - `all_outlets_known`;
  - the three `can_run` predicates;
  - the job steps;
  - outlet validation, including its capacity check;
  - the choice of hosts to notify after an outlet save.
- `PowerControlDevice.clean` is a method over a class whose fields it
  updates, proved against the function `Cleaned`.
- Outlet `save` and `prepopulate_outlets` are methods of an `OutletTable`
  class. It holds the outlet rows (the primary key is the row index) and the
  hosts sent to the job scheduler for fencing reconfiguration.

**Host partition** (`create-or-update-hosts-then-factory.js`).

- The server form is expanded into one host object per address.
- The objects are split against the known servers. New addresses are POSTed,
  known undeployed ones are PUT, and the rest are left unchanged.
- The servers behind the unchanged objects are wrapped as `{host: server}`.
- The two `push` reductions are loop methods proved against functions. The
  filters are functions, and the partition is proved disjoint and complete.

## Model

| member | source | states |
|---|---|---|
| Routing.RequestKey | chroma_core/lib/storage_plugin/messaging.py:97 | the request key starts with `plugin_data_request_` and then holds plugin, `_` and tag |
| Routing.ResponseKey | chroma_core/lib/storage_plugin/messaging.py:171 | the response key starts with `plugin_data_response_` and then holds plugin, `_` and tag |
| Routing.RequestAndResponseKeysDiffer | chroma_core/lib/storage_plugin/messaging.py:184 | no request key equals any response key, for any plugins and tags |
| Routing.ChannelsCanShareAKey | chroma_core/lib/storage_plugin/messaging.py:120 | two different (plugin, tag) pairs can map to the same request key, because the `_` separator is ambiguous |
| Routing.RequestKeyDeterminesTag | chroma_core/lib/storage_plugin/messaging.py:142 | for one plugin, equal request keys mean equal tags |
| Envelope.ComposeBody | chroma_core/lib/storage_plugin/messaging.py:102-106 | fails with the reserved-key error iff the request has an `id` key; otherwise the body is the request's fields, unchanged, plus `id` set to the request id |
| Envelope.ComposedBodyStripsBack | chroma_core/lib/storage_plugin/messaging.py:102-106 | removing `id` from a composed body gives back the caller's request |
| Envelope.ResponseBody | chroma_core/lib/storage_plugin/messaging.py:173 | a response body has exactly the keys `id` and `data`, holding the request id and the data |
| Drain.Handle | chroma_core/lib/storage_plugin/messaging.py:189-202 | receive's handler acks every message; a handler that does not raise has acked; handlers raise only KeyError; at most one value is emitted |
| Drain.Drained | chroma_core/lib/storage_plugin/messaging.py:10-25 | a pass raises only KeyError and never emits or keeps more messages than the queue held |
| Drain.CollectAll | chroma_core/lib/storage_plugin/messaging.py:124-134 | when every request has an id, receive_all's pass returns every body in queue order and empties the queue |
| Drain.FirstMissingId | chroma_core/lib/storage_plugin/messaging.py:125 | returns the index of the first request without an id, every request before it having one; none iff every request has an id |
| Drain.CollectStopsAtMissingId | chroma_core/lib/storage_plugin/messaging.py:125 | at the first request without an id the pass raises KeyError; the bodies before it are acked and lost with the exception, and it and all later ones stay queued |
| Drain.MatchAcksEverything | chroma_core/lib/storage_plugin/messaging.py:201-202 | a receive pass that raises nothing leaves the response queue empty |
| Drain.FirstWithId | chroma_core/lib/storage_plugin/messaging.py:196-197 | returns the index of the first message carrying the id, or none when no message carries it |
| Drain.MatchNoneEmitsNothing | chroma_core/lib/storage_plugin/messaging.py:189-200 | with no matching message, the pass acks all messages and emits and raises nothing |
| Drain.MatchFirstWins | chroma_core/lib/storage_plugin/messaging.py:196-197 | when every match carries data, the first value emitted is the first match's data |
| Drain.MatchCarryingDataNeverRaises | chroma_core/lib/storage_plugin/messaging.py:190-202 | when every match carries data, the pass raises nothing |
| Drain.MatchWithoutDataRaises | chroma_core/lib/storage_plugin/messaging.py:197 | a matching message without `data` makes the pass raise KeyError('data') |
| Drain.ReceiveOutcome | chroma_core/lib/storage_plugin/messaging.py:204-209 | what receive returns or raises for a response queue: the KeyError of the pass, else the first value emitted, else Timeout naming 30 seconds; characterised by `ReceiveOutcomeCases` |
| Drain.ReceiveOutcomeCases | chroma_core/lib/storage_plugin/messaging.py:204-209 | receive returns the first match's data; with no match it raises Timeout naming 30 seconds; with a match lacking data it raises KeyError |
| Drain.ReceiveReturnsPublishedData | chroma_core/lib/storage_plugin/messaging.py:167-173 | round trip: a response sent for an id not yet on the queue is what receive returns |
| Drain.ReplyDuringWindowIsReturned | chroma_core/lib/storage_plugin/messaging.py:204-209 | a reply for the id that arrives during receive's window, with nothing before it carrying the id and every later match carrying data, is what receive returns |
| Drain.RevokeRound | chroma_core/lib/storage_plugin/messaging.py:146-157 | revoke's single poll round on the request queue; characterised by `RevokeRoundEffect` |
| Drain.RevokeRoundEffect | chroma_core/lib/storage_plugin/messaging.py:146-157 | revoke's single round removes at most the head message, and only if it carries the target id; it raises iff the head has no id |
| Broker.Published | chroma_core/lib/storage_plugin/messaging.py:108-109 | publishing appends to the queue bound by the key, leaves every other queue alone and drops the message when no queue exists |
| Broker.Uuid | chroma_core/lib/storage_plugin/messaging.py:100-101 | the request id drawn from the counter-backed uuid oracle; `UuidsDistinct` shows it never repeats |
| Broker.UuidsDistinct | chroma_core/lib/storage_plugin/messaging.py:100-101 | ids drawn at different counter values differ |
| Broker.Broker.Declare | chroma_core/lib/storage_plugin/messaging.py:129-130 | declaring creates an empty queue only when none exists and changes nothing else |
| Broker.Broker.DrainAll | chroma_core/lib/storage_plugin/messaging.py:10-25 | the drain loop emits, raises and leaves queued what `Drained` says; only its own queue changes; one idle poll is counted when the pass ends quietly |
| Broker.Broker.SendRequest | chroma_core/lib/storage_plugin/messaging.py:87-112 | with an `id` in the request it fails and publishes nothing; otherwise it returns a fresh id and publishes the request plus that id to the request key |
| Broker.Broker.ReceiveAll | chroma_core/lib/storage_plugin/messaging.py:114-134 | when all requests have ids it returns them in order and empties the queue; otherwise it raises KeyError, the requests before the first one without an id are removed and not returned, and that one and all later ones stay queued; no other queue changes |
| Broker.Broker.Revoke | chroma_core/lib/storage_plugin/messaging.py:136-158 | one round on the request queue acks the head only if it is the target request; it returns the empty list, and every other queue is unchanged |
| Broker.Broker.SendResponse | chroma_core/lib/storage_plugin/messaging.py:165-173 | publishes `{id, data}` to the response key and changes nothing else |
| Broker.Broker.Receive | chroma_core/lib/storage_plugin/messaging.py:175-209 | the result is `ReceiveOutcome` of the response queue followed by the bodies published during the window, whatever `timeout` is passed; on a return or a Timeout the response queue is left empty and one 30-second idle poll is counted |
| Availability.WaitForHost | chroma_core/lib/storage_plugin/messaging.py:37-57 | returns at once when the host is available; otherwise waits in steps of 10; becomes ready iff the host is seen available before a non-zero timeout; times out at the first step reaching the timeout; never times out when the timeout is 0; when the host never comes up, it times out iff the timeout is non-zero and the polls reach it |
| Rpc.PluginRpc | chroma_core/lib/storage_plugin/messaging.py:60-80 | if the host never becomes available, nothing is sent and it times out iff the timeout is non-zero and the polls reach it; otherwise `{id}` is published, and when a reply carrying the id arrives during receive's window its data comes back unchanged; the window is 30 seconds whatever timeout is passed; a Timeout from receive causes exactly one revoke of that id on the host's channel, then the Timeout is raised again |
| PowerTypes.DisplayName | chroma-manager/chroma_core/models/power_control.py:77-81 | "make model (count)"; its shape is stated by `DisplayNameShape` |
| PowerTypes.DisplayNameShape | chroma-manager/chroma_core/models/power_control.py:77-81 | the name starts with "Unknown Make " for an empty make and with the make otherwise; the model follows, as "Unknown Model" when it is empty; it ends with " (IPMI)" when max_outlets is 0 and with the count otherwise |
| PowerTypes.DisplayNameParts | chroma-manager/chroma_core/models/power_control.py:81 | the name begins with the make label and a space, and ends with a space, the model label and the count label in parentheses |
| PowerTypes.CountLabelReadsBack | chroma-manager/chroma_core/models/power_control.py:80 | the count label reads back as the outlet count, and it is "IPMI" iff the count is 0 |
| Outlets.PowerState | chroma-manager/chroma_core/models/power_control.py:329-334 | "Unknown", "ON" or "OFF" for None, True and False; characterised by `PowerStateDistinguishes` |
| Outlets.PowerStateDistinguishes | chroma-manager/chroma_core/models/power_control.py:329-334 | the power state is one of "Unknown", "ON" and "OFF", and different has_power values render differently |
| Outlets.AllOutletsKnown | chroma-manager/chroma_core/models/power_control.py:189-192 | every outlet's has_power is True or False; tied to `PowerState` by `AllKnownIffNoneUnknown` |
| Outlets.AllKnownIffNoneUnknown | chroma-manager/chroma_core/models/power_control.py:189-192 | all outlets are known iff none renders as "Unknown" |
| Outlets.CountIdentifier | chroma-manager/chroma_core/models/power_control.py:279 | the count is zero iff no outlet of the device has the identifier |
| Outlets.OutletClean | chroma-manager/chroma_core/models/power_control.py:275-290 | MultipleObjectsReturned iff two or more outlets of the device share the identifier; AtCapacity iff the outlet is new, max_outlets > 0 and the device already has max_outlets outlets; max_outlets 0 is unlimited; an outlet whose identifier the device already has is never rejected for capacity |
| Outlets.CapacityKeptForNewIdentifier | chroma-manager/chroma_core/models/power_control.py:284-288 | a new outlet that passes clean keeps a limited device within its limit |
| Outlets.RepeatedIdentifierPassesFullDevice | chroma-manager/chroma_core/models/power_control.py:279-280 | a concrete new outlet repeating an identifier on a full device passes clean, and the device then exceeds its limit |
| Outlets.RenameOnFullDeviceRejected | chroma-manager/chroma_core/models/power_control.py:279-288 | a concrete existing outlet renamed on a full device is rejected for capacity, since the update test goes by identifier |
| Outlets.NotifyTargets | chroma-manager/chroma_core/models/power_control.py:312-319 | the new host, if set, is notified last; the old host is notified iff it was set and differs from the new host (including a new host of None); no host is notified twice |
| Outlets.Stored | chroma-manager/chroma_core/models/power_control.py:305 | saving with a pk replaces that row and leaves every other row as it was; saving without one appends a row |
| Outlets.NumberedOutlets | chroma-manager/chroma_core/models/power_control.py:239-240 | the prepopulated outlets are exactly the device's outlets with identifiers "1" to "n", in order |
| Outlets.NumberedOutletsAreTheDevices | chroma-manager/chroma_core/models/power_control.py:239-240 | all prepopulated outlets belong to the device |
| Outlets.PrepopulateStep | chroma-manager/chroma_core/models/power_control.py:238-240 | each created outlet passes clean, notifies nobody and extends the numbered outlets by one |
| Outlets.OutletTable.Save | chroma-manager/chroma_core/models/power_control.py:292-319 | with skip_reconfigure it stores without validating and notifies nobody; otherwise a failed clean writes nothing, and a passed clean stores the row and notifies `NotifyTargets` of the previous row and the new host |
| Outlets.OutletTable.Prepopulate | chroma-manager/chroma_core/models/power_control.py:234-240 | on creation with max_outlets > 0, exactly outlets "1" to max_outlets are appended; otherwise nothing is; nobody is notified |
| PowerDevice.Cleaned | chroma-manager/chroma_core/models/power_control.py:165-183 | the fields after clean and its ValidationError; characterised by `CleanedFieldRules` |
| PowerDevice.CleanedFieldRules | chroma-manager/chroma_core/models/power_control.py:165-183 | username, password and options take the type default iff they are "" or None, and port iff it is None; clean fails iff the address is blank; otherwise a blank name becomes the address |
| PowerDevice.CleanIdempotent | chroma-manager/chroma_core/models/power_control.py:165-183 | cleaning a cleaned device changes nothing |
| PowerDevice.PowerControlDevice.FieldIsBlank | chroma-manager/chroma_core/models/power_control.py:169 | reports whether the field is "" or None |
| PowerDevice.PowerControlDevice.SetToTypeDefault | chroma-manager/chroma_core/models/power_control.py:170-171 | sets the blank field to the type's default and nothing else |
| PowerDevice.PowerControlDevice.Clean | chroma-manager/chroma_core/models/power_control.py:165-183 | the defaulting loop and the address and name rules leave the fields and the error as `Cleaned` specifies |
| PowerJobs.PoweronCanRun | chroma-manager/chroma_core/models/power_control.py:358-367 | at least one outlet, all known, none on; related to the others by `CanRunRelations` |
| PowerJobs.PoweroffCanRun | chroma-manager/chroma_core/models/power_control.py:394-403 | at least one outlet, all known, some on; related to the others by `CanRunRelations` |
| PowerJobs.PowercycleCanRun | chroma-manager/chroma_core/models/power_control.py:430-437 | at least one outlet, whatever their state; related to the others by `CanRunRelations` |
| PowerJobs.CanRunRelations | chroma-manager/chroma_core/models/power_control.py:358-367 | power on and power off are never both allowed; with known outlets exactly one is; either implies power cycle; power on iff every outlet is off |
| PowerJobs.PoweronSteps | chroma-manager/chroma_core/models/power_control.py:376-377 | a single toggle-on step over the host's outlets |
| PowerJobs.PoweroffSteps | chroma-manager/chroma_core/models/power_control.py:412-413 | a single toggle-off step over the host's outlets |
| PowerJobs.PowercycleSteps | chroma-manager/chroma_core/models/power_control.py:446-453 | exactly the power-off steps followed by the power-on steps, over the same outlets |
| PowerJobs.Toggled | chroma-manager/chroma_core/models/power_control.py:461-463 | a toggle step sets every outlet it names to the new state, known |
| PowerJobs.StepsReachOppositeJob | chroma-manager/chroma_core/models/power_control.py:430-437 | after power on only power off may run, and after power off only power on; power cycle always ends with every outlet on |
| HostPartition.Omit | chroma-manager/chroma_ui_new/source/chroma_ui/iml/server/create-or-update-hosts-then-factory.js:37 | drops `address` and `pdsh` and keeps every other property unchanged |
| HostPartition.Objects | chroma-manager/chroma_ui_new/source/chroma_ui/iml/server/create-or-update-hosts-then-factory.js:36-40 | one object per address, in order, each with the form's other properties |
| HostPartition.BuildObjects | chroma-manager/chroma_ui_new/source/chroma_ui/iml/server/create-or-update-hosts-then-factory.js:36-40 | the push loop builds exactly `Objects` |
| HostPartition.ObjectsMembership | chroma-manager/chroma_ui_new/source/chroma_ui/iml/server/create-or-update-hosts-then-factory.js:37 | an object is expanded iff its address is in the form and its properties are the form's other properties |
| HostPartition.FindByAddress | chroma-manager/chroma_ui_new/source/chroma_ui/iml/server/create-or-update-hosts-then-factory.js:48 | returns the first server with the address, or none iff no server has it |
| HostPartition.Difference | chroma-manager/chroma_ui_new/source/chroma_ui/iml/server/create-or-update-hosts-then-factory.js:57 | `_.difference`: the elements of the first list absent from the second, in order |
| HostPartition.ToPost | chroma-manager/chroma_ui_new/source/chroma_ui/iml/server/create-or-update-hosts-then-factory.js:47-49 | the objects whose address no server has; characterised by `PostByAction` |
| HostPartition.ToPut | chroma-manager/chroma_ui_new/source/chroma_ui/iml/server/create-or-update-hosts-then-factory.js:52-54 | the remaining objects whose server is undeployed; characterised by `PutByAction` |
| HostPartition.Leftovers | chroma-manager/chroma_ui_new/source/chroma_ui/iml/server/create-or-update-hosts-then-factory.js:57 | the objects in neither group; characterised by `LeftoversByAction` |
| HostPartition.PostByAction | chroma-manager/chroma_ui_new/source/chroma_ui/iml/server/create-or-update-hosts-then-factory.js:47-49 | toPost is exactly the objects, in order, whose address matches no server |
| HostPartition.PutByAction | chroma-manager/chroma_ui_new/source/chroma_ui/iml/server/create-or-update-hosts-then-factory.js:52-54 | toPut is exactly the objects, in order, whose first matching server is undeployed |
| HostPartition.LeftoversByAction | chroma-manager/chroma_ui_new/source/chroma_ui/iml/server/create-or-update-hosts-then-factory.js:57 | leftovers are exactly the objects whose matching server is in any other state |
| HostPartition.FilterMember | chroma-manager/chroma_ui_new/source/chroma_ui/iml/server/create-or-update-hosts-then-factory.js:47 | `filter` keeps an element iff it is in the list and satisfies the predicate |
| HostPartition.SplitIsPartition | chroma-manager/chroma_ui_new/source/chroma_ui/iml/server/create-or-update-hosts-then-factory.js:47-57 | toPost, toPut and leftovers are pairwise disjoint, and their multisets add up to the objects |
| HostPartition.NothingToPostIffAllKnown | chroma-manager/chroma_ui_new/source/chroma_ui/iml/server/create-or-update-hosts-then-factory.js:47-50 | nothing is POSTed iff every address of the form is already known |
| HostPartition.PutHoldsUndeployed | chroma-manager/chroma_ui_new/source/chroma_ui/iml/server/create-or-update-hosts-then-factory.js:52-55 | the PUT objects are exactly the expanded objects whose server is undeployed |
| HostPartition.Wrapped | chroma-manager/chroma_ui_new/source/chroma_ui/iml/server/create-or-update-hosts-then-factory.js:62-70 | wraps each server as `{host: server}`, in order |
| HostPartition.UnchangedServers | chroma-manager/chroma_ui_new/source/chroma_ui/iml/server/create-or-update-hosts-then-factory.js:58-70 | the reply holds, in server order, exactly the known servers whose address is among the leftovers, each wrapped |
| HostPartition.UnchangedAreNotUndeployed | chroma-manager/chroma_ui_new/source/chroma_ui/iml/server/create-or-update-hosts-then-factory.js:57-61 | when server addresses are distinct, no server reported unchanged is undeployed |
| HostPartition.HostWorker | chroma-manager/chroma_ui_new/source/chroma_ui/iml/server/create-or-update-hosts-then-factory.js:106-116 | empty data resolves at once with no request; otherwise the objects are sent to `/host` with the given method |
| HostPartition.CreateOrUpdateHosts | chroma-manager/chroma_ui_new/source/chroma_ui/iml/server/create-or-update-hosts-then-factory.js:42-70 | the handler POSTs toPost, PUTs toPut and reports the servers behind the leftovers |

## Left out

- The kombu connection, producer and consumer, and the AMQP URL. The broker is an abstract map of queues.
- Socket timeouts and `time.sleep`. Time is a counter of idle poll time (tenths of a second) or of elapsed seconds.
- `uuid.uuid1`. Ids come from a counter, which makes them distinct by construction.
- Logging, and the JSON serialisation of bodies.
- The ORM and transactions: the host reload in `_wait_for_host`, the outlet `get`s and the `save`s. Host liveness is an oracle sequence, and outlet rows are a sequence indexed by primary key.
- Broker.Broker.Receive: the bodies published while its window is open are an oracle sequence that joins the queue when the window opens. The model does not capture a reply that comes more than 30 seconds after the last delivery, which the real drain misses, nor the interleaving of arrivals with deliveries.
- Rpc.PluginRpc: the replies during receive's window are the same oracle sequence; which of them the agent publishes is not modelled.
- Availability.WaitForHost: blocking beyond the end of the liveness oracle is not modelled. It ends as `StillBlocked` (and `PluginRpc` as `StillWaiting`) instead of waiting for ever.
- DNS resolution of the device address in `clean`. It is a foreign call.
- `full_clean`'s field and uniqueness validation, beyond the two `clean` methods.
- Command-template formatting and splitting (`_template_to_command` and the command helpers).
- Loading of the power-type fixtures.
- The power-device register/unregister signals.
- Deletion cascades and alert classes.
- `ConfigureHostFencingJob` and its step.
- `JobSchedulerClient.notify` is recorded only as the sequence of hosts notified. `PowerControlClient.toggle_device_outlets` is not called.
- PowerJobs.Toggled: it models the intended effect of a toggle step, assuming the device obeys.
- The promise, deferred and socket plumbing of the hosts factory.
- lodash `_.merge` of the responses.
- The behaviour of `sendPost` and `sendPut` beyond which objects they are sent.
- Object identity: `_.difference` compares JavaScript objects by reference, while the model compares host objects by value. The split is the same either way, because equal objects share an address and so take the same branch.
- Concurrency, including two simultaneous `receive` calls on one channel.
