/**
 * plugin_rpc: the synchronous call built from the gate, the request
 * dispatcher and the response collector, with revocation on timeout.
 */
module Rpc {
  import opened Wrappers
  import opened Routing
  import opened Envelope
  import opened Drain
  import opened Broker
  import opened Availability

  /** The part of a ManagedHost record the call uses. */
  datatype ManagedHost = ManagedHost(id: nat, fqdn: string)

  datatype RpcOutcome =
    | Returned(data: Json)
    | Raised(error: RpcError)
    | StillWaiting   // blocked in the availability gate beyond the liveness oracle

  /** The queues after revoke's round on `key`, as Broker.Revoke leaves them. */
  function AfterRevoke(qs: map<string, seq<Body>>, key: string, id: string): map<string, seq<Body>> {
    match RevokeRound(id, QueueAt(qs, key))
    case Ok(q) => qs[key := q]
    case Err(_) => qs[key := QueueAt(qs, key)]
  }

  /**
   * plugin_rpc(plugin_name, host, request, timeout). The request published is
   * always the bare envelope {'id': request_id}: the caller's `request` is not
   * passed on. `replies` are the bodies published to the host's response key
   * while receive's 30-second window is open. A Timeout from receive triggers
   * exactly one revoke of that request id on the host's channel, then the
   * Timeout is raised again.
   */
  method PluginRpc(b: Broker, plugin: string, host: ManagedHost, request: Body, timeout: int,
                   liveness: seq<bool>, replies: seq<Body>)
    returns (o: RpcOutcome)
    modifies b
    ensures !BecomesAvailable(liveness, timeout) ==>
      && b.queues == old(b.queues) && b.connections == old(b.connections)
      && b.uuidClock == old(b.uuidClock) && b.idle == old(b.idle)
      && (o == StillWaiting || o == Raised(HostTimeout(host.fqdn)))
      && (o == Raised(HostTimeout(host.fqdn)) <==>
            timeout != 0 && |liveness| > 0 && PollInterval * |liveness| >= timeout)
    ensures BecomesAvailable(liveness, timeout) ==>
      var id := Uuid(old(b.uuidClock));
      var reqKey, respKey := RequestKey(plugin, host.fqdn), ResponseKey(plugin, host.fqdn);
      var window := QueueAt(old(b.queues), respKey) + replies;
      var got := ReceiveOutcome(plugin, host.fqdn, id, window);
      var sent := Published(old(b.queues), reqKey, map["id" := JStr(id)]);
      var received := sent[respKey := Drained(MatchResponse(id), window).rest];
      var dispatched := old(b.connections) + [SendRequestConn(plugin, host.fqdn), ReceiveConn(plugin, host.fqdn, id)];
      && b.uuidClock == old(b.uuidClock) + 1
      && (got.Ok? ==>
            && o == Returned(got.value) && b.connections == dispatched && b.queues == received
            && b.idle == old(b.idle) + ResponsePollTenths)
      && (got.Err? && !got.error.IsTimeout() ==>
            && o == Raised(got.error) && b.connections == dispatched
            && b.queues == received && b.idle == old(b.idle))
      && (got.Err? && got.error.IsTimeout() ==>
            && b.connections == dispatched + [RevokeConn(plugin, host.fqdn, id)]
            && b.queues == AfterRevoke(received, reqKey, id)
            && b.idle == old(b.idle) + ResponsePollTenths
                         + (if QueueAt(received, reqKey) == [] then ShortPollTenths else 0)
            && o == Raised(match RevokeRound(id, QueueAt(received, reqKey))
                           case Err(e) => e
                           case Ok(_) => got.error))
    ensures BecomesAvailable(liveness, timeout) ==>
      var id := Uuid(old(b.uuidClock));
      var window := QueueAt(old(b.queues), ResponseKey(plugin, host.fqdn)) + replies;
      FirstWithId(id, window).Some? && MatchesCarryData(id, window) ==>
        o == Returned(window[FirstWithId(id, window).value]["data"])
  {
    // the gate: no request goes out while the host is unavailable
    if !(|liveness| > 0 && liveness[0]) {
      var w := WaitForHost(liveness, timeout);
      match w
      case HostTimedOut(_) => return Raised(HostTimeout(host.fqdn));
      case StillBlocked(_) => return StillWaiting;
      case Ready(_) =>
    } else {
      assert BecomesAvailable(liveness, timeout) by { assert liveness[0]; }
    }
    ghost var qs0 := b.queues;
    var sent := b.SendRequest(plugin, host.fqdn, map[]);
    var requestId := sent.value;
    RequestAndResponseKeysDiffer(plugin, host.fqdn, plugin, host.fqdn);
    assert QueueAt(b.queues, ResponseKey(plugin, host.fqdn)) == QueueAt(qs0, ResponseKey(plugin, host.fqdn));
    ReceiveOutcomeCases(plugin, host.fqdn, requestId, QueueAt(qs0, ResponseKey(plugin, host.fqdn)) + replies);
    var got := b.Receive(plugin, host.fqdn, requestId, DefaultResponseTimeout, replies);
    if got.Ok? {
      return Returned(got.value);
    }
    if !got.error.IsTimeout() {
      return Raised(got.error);
    }
    // no response arrived in time: withdraw the request before re-raising
    var revoked := b.Revoke(plugin, host.fqdn, requestId);
    if revoked.Err? {
      return Raised(revoked.error);
    }
    return Raised(got.error);
  }
}
