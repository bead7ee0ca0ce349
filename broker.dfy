/**
 * The broker as the messaging layer sees it, and the operations of
 * PluginRequest and PluginResponse over it. A queue is named after its
 * routing key; a key is present in `queues` once the queue has been
 * declared. Acknowledging a message removes it.
 */
module Broker {
  import opened Wrappers
  import opened Decimal
  import opened Routing
  import opened Envelope
  import opened Drain

  /** Poll timeout of receive_all and revoke (0.1 s), in tenths of a second. */
  const ShortPollTenths: nat := 1
  /** Poll timeout of receive (RESPONSE_TIMEOUT = 30 s), in tenths of a second. */
  const ResponsePollTenths: nat := 10 * ResponseTimeoutSeconds

  /** DEFAULT_RESPONSE_TIMEOUT: the default of receive's (unused) timeout argument, in seconds. */
  const DefaultResponseTimeout: nat := 30

  /** The operation each broker connection was opened for, in order. */
  datatype Connection =
    | SendRequestConn(plugin: string, tag: string)
    | ReceiveAllConn(plugin: string, tag: string)
    | RevokeConn(plugin: string, tag: string, requestId: string)
    | SendResponseConn(plugin: string, tag: string, requestId: string)
    | ReceiveConn(plugin: string, tag: string, requestId: string)

  /** The messages queued under `key`; an undeclared queue holds none. */
  function QueueAt(qs: map<string, seq<Body>>, key: string): seq<Body> {
    if key in qs then qs[key] else []
  }

  /** A direct exchange routes a message to the queue bound by its key, and drops it when there is none. */
  function Published(qs: map<string, seq<Body>>, key: string, b: Body): (r: map<string, seq<Body>>)
    ensures r.Keys == qs.Keys
    ensures key in qs ==> r[key] == qs[key] + [b]
    ensures forall k :: k in qs && k != key ==> r[k] == qs[k]
  {
    if key in qs then qs[key := qs[key] + [b]] else qs
  }

  /** uuid.uuid1() as a source of distinct ids: the decimal rendering of a counter. */
  function Uuid(n: nat): string { NatToString(n) }

  /** Ids handed out at different counter values differ. */
  lemma UuidsDistinct(m: nat, n: nat)
    requires m != n
    ensures Uuid(m) != Uuid(n)
  {
    NatToStringInjective(m, n);
  }

  /**
   * The loop invariant of _drain_all: the first `seen` messages of `q` were
   * delivered and left unacknowledged, `out` holds what the handler emitted,
   * and draining the rest finishes the pass over the original queue `q0`.
   */
  ghost predicate DrainedSoFar(h: Handler, q0: seq<Body>, q: seq<Body>, seen: nat, out: seq<Json>)
    requires seen <= |q|
  {
    var p := Drained(h, q[seen..]);
    Drained(h, q0) == Pass(out + p.out, q[..seen] + p.rest, p.raised)
  }

  lemma DrainExhausted(h: Handler, q0: seq<Body>, q: seq<Body>, out: seq<Json>)
    requires DrainedSoFar(h, q0, q, |q|, out)
    ensures Drained(h, q0) == Pass(out, q, None)
  {
    assert q[|q|..] == [];
    assert q[..|q|] == q;
    assert out + [] == out && q + [] == q;
  }

  lemma DrainAdvance(h: Handler, q0: seq<Body>, q: seq<Body>, seen: nat, out: seq<Json>)
    requires seen < |q| && DrainedSoFar(h, q0, q, seen, out)
    ensures var r := Handle(h, q[seen]);
      var kept := if r.acked then [] else [q[seen]];
      var q' := q[..seen] + kept + q[seen + 1..];
      && seen + |kept| <= |q'|
      && (r.raised.Some? ==> Drained(h, q0) == Pass(out + r.out, q', r.raised))
      && (r.raised.None? ==> DrainedSoFar(h, q0, q', seen + |kept|, out + r.out))
  {
    var r := Handle(h, q[seen]);
    var kept := if r.acked then [] else [q[seen]];
    var q' := q[..seen] + kept + q[seen + 1..];
    var seen' := seen + |kept|;
    assert q[seen..][0] == q[seen];
    assert q[seen..][1..] == q[seen + 1..];
    Splice(q, seen, kept);
    if r.raised.Some? {
      assert q' == q[..seen] + (kept + q[seen + 1..]);
    } else {
      var p' := Drained(h, q[seen + 1..]);
      assert out + (r.out + p'.out) == (out + r.out) + p'.out;
      assert q[..seen] + (kept + p'.rest) == (q[..seen] + kept) + p'.rest;
    }
  }

  /** Replacing message `seen` by `kept` (itself or nothing) leaves the parts around it in place. */
  lemma Splice(q: seq<Body>, seen: nat, kept: seq<Body>)
    requires seen < |q| && |kept| <= 1
    ensures var q' := q[..seen] + kept + q[seen + 1..];
      && seen + |kept| <= |q'|
      && q'[..seen + |kept|] == q[..seen] + kept
      && q'[seen + |kept|..] == q[seen + 1..]
  {
  }

  class Broker {
    /** Declared queues by routing key, oldest message first. */
    var queues: map<string, seq<Body>>
    /** Time spent in poll rounds that delivered nothing, in tenths of a second. */
    var idle: nat
    /** The uuid oracle's counter. */
    var uuidClock: nat
    /** One entry per connection opened. */
    var connections: seq<Connection>

    constructor ()
      ensures queues == map[] && idle == 0 && uuidClock == 0 && connections == []
    {
      queues := map[];
      idle := 0;
      uuidClock := 0;
      connections := [];
    }

    /** queue.declare(): creates the queue when it does not exist yet. */
    method Declare(key: string)
      modifies this
      ensures queues == if key in old(queues) then old(queues) else old(queues)[key := []]
      ensures idle == old(idle) && uuidClock == old(uuidClock) && connections == old(connections)
    {
      if key !in queues {
        queues := queues[key := []];
      }
    }

    /**
     * _drain_all: poll rounds with timeout `pollTenths` until a round delivers
     * nothing. The pass ends early when the handler raises.
     */
    method DrainAll(key: string, h: Handler, pollTenths: nat) returns (out: seq<Json>, raised: Option<RpcError>)
      requires key in queues
      modifies this
      ensures var p := Drained(h, old(queues[key]));
        out == p.out && raised == p.raised && queues == old(queues)[key := p.rest]
      ensures idle == old(idle) + (if raised.None? then pollTenths else 0)
      ensures uuidClock == old(uuidClock) && connections == old(connections)
    {
      ghost var q0 := queues[key];
      var seen: nat := 0;
      out, raised := [], None;
      while true
        invariant key in queues && seen <= |queues[key]|
        invariant queues == old(queues)[key := queues[key]]
        invariant idle == old(idle) && uuidClock == old(uuidClock) && connections == old(connections)
        invariant DrainedSoFar(h, q0, queues[key], seen, out)
        decreases |queues[key]| - seen
      {
        var q := queues[key];
        if seen == |q| {
          // drain_events timed out: the queue is exhausted for now
          DrainExhausted(h, q0, q, out);
          idle := idle + pollTenths;
          return;
        }
        var r := Handle(h, q[seen]);
        var kept := if r.acked then [] else [q[seen]];
        DrainAdvance(h, q0, q, seen, out);
        queues := queues[key := q[..seen] + kept + q[seen + 1..]];
        seen := seen + |kept|;
        out := out + r.out;
        if r.raised.Some? {
          raised := r.raised;
          return;
        }
      }
    }

    /** PluginRequest.send */
    method SendRequest(plugin: string, tag: string, request: Body) returns (r: Result<string, RpcError>)
      modifies this
      ensures uuidClock == old(uuidClock) + 1
      ensures "id" in request ==> r == Err(ReservedKey) && queues == old(queues)
      ensures "id" !in request ==>
        && r == Ok(Uuid(old(uuidClock)))
        && queues == Published(old(queues), RequestKey(plugin, tag), request["id" := JStr(r.value)])
      ensures idle == old(idle) && connections == old(connections) + [SendRequestConn(plugin, tag)]
    {
      connections := connections + [SendRequestConn(plugin, tag)];
      var key := RequestKey(plugin, tag);
      var requestId := Uuid(uuidClock);
      uuidClock := uuidClock + 1;
      var body := ComposeBody(requestId, request);
      if body.Err? {
        return Err(body.error);
      }
      assert body.value == request["id" := JStr(requestId)];
      queues := Published(queues, key, body.value);
      return Ok(requestId);
    }

    /** PluginRequest.receive_all */
    method ReceiveAll(plugin: string, tag: string) returns (r: Result<seq<Json>, RpcError>)
      modifies this
      ensures var key := RequestKey(plugin, tag);
        var p := Drained(CollectRequest, QueueAt(old(queues), key));
        && queues == old(queues)[key := p.rest]
        && r == (if p.raised.Some? then Err(p.raised.value) else Ok(p.out))
      ensures var q := QueueAt(old(queues), RequestKey(plugin, tag));
        AllHaveIds(q) ==> r == Ok(AsObjects(q)) && queues[RequestKey(plugin, tag)] == []
      ensures var q := QueueAt(old(queues), RequestKey(plugin, tag));
        FirstMissingId(q).Some? ==>
          r == Err(MissingKey("id")) && queues[RequestKey(plugin, tag)] == q[FirstMissingId(q).value..]
      ensures idle == old(idle) + (if r.Ok? then ShortPollTenths else 0)
      ensures uuidClock == old(uuidClock) && connections == old(connections) + [ReceiveAllConn(plugin, tag)]
    {
      connections := connections + [ReceiveAllConn(plugin, tag)];
      var key := RequestKey(plugin, tag);
      Declare(key);
      match FirstMissingId(queues[key]) {
        case None => CollectAll(queues[key]);
        case Some(k) => CollectStopsAtMissingId(queues[key], k);
      }
      var out, raised := DrainAll(key, CollectRequest, ShortPollTenths);
      if raised.Some? {
        return Err(raised.value);
      }
      return Ok(out);
    }

    /** PluginRequest.revoke: one poll round; returns its never-filled `requests` list. */
    method Revoke(plugin: string, tag: string, requestId: string) returns (r: Result<seq<Json>, RpcError>)
      modifies this
      ensures var key := RequestKey(plugin, tag);
        var round := RevokeRound(requestId, QueueAt(old(queues), key));
        && (round.Err? ==> r == Err(round.error) && queues == old(queues)[key := QueueAt(old(queues), key)])
        && (round.Ok? ==> r == Ok([]) && queues == old(queues)[key := round.value])
      ensures idle == old(idle) + (if QueueAt(old(queues), RequestKey(plugin, tag)) == [] then ShortPollTenths else 0)
      ensures uuidClock == old(uuidClock)
      ensures connections == old(connections) + [RevokeConn(plugin, tag, requestId)]
    {
      connections := connections + [RevokeConn(plugin, tag, requestId)];
      var key := RequestKey(plugin, tag);
      Declare(key);
      var q := queues[key];
      if q == [] {
        // drain_events(timeout = 0.1) raised socket.timeout, which revoke swallows
        idle := idle + ShortPollTenths;
        return Ok([]);
      }
      var m := q[0];
      if "id" !in m {
        // body['id'] raises KeyError; the message is not acknowledged
        return Err(MissingKey("id"));
      }
      if m["id"] == JStr(requestId) {
        queues := queues[key := q[1..]];
      }
      return Ok([]);
    }

    /** PluginResponse.send */
    method SendResponse(plugin: string, tag: string, requestId: string, data: Json)
      modifies this
      ensures queues == Published(old(queues), ResponseKey(plugin, tag), ResponseBody(requestId, data))
      ensures idle == old(idle) && uuidClock == old(uuidClock)
      ensures connections == old(connections) + [SendResponseConn(plugin, tag, requestId)]
    {
      connections := connections + [SendResponseConn(plugin, tag, requestId)];
      queues := Published(queues, ResponseKey(plugin, tag), ResponseBody(requestId, data));
    }

    /**
     * PluginResponse.receive. The `timeout` argument is accepted and ignored:
     * the drain always uses the fixed 30-second window. `arrivals` are the
     * bodies published to the response key while that window is open (the
     * agent's reply among them); they join the declared queue behind what
     * was already there and are drained with it.
     */
    method Receive(plugin: string, tag: string, requestId: string, timeout: int, arrivals: seq<Body>)
      returns (r: Result<Json, RpcError>)
      modifies this
      ensures var key := ResponseKey(plugin, tag);
        var q := QueueAt(old(queues), key) + arrivals;
        && r == ReceiveOutcome(plugin, tag, requestId, q)
        && queues == old(queues)[key := Drained(MatchResponse(requestId), q).rest]
      ensures r.Ok? || r.error.ResponseTimeout? ==> queues[ResponseKey(plugin, tag)] == []
      ensures idle == old(idle) + (if r.Ok? || r.error.ResponseTimeout? then ResponsePollTenths else 0)
      ensures uuidClock == old(uuidClock)
      ensures connections == old(connections) + [ReceiveConn(plugin, tag, requestId)]
    {
      connections := connections + [ReceiveConn(plugin, tag, requestId)];
      var key := ResponseKey(plugin, tag);
      Declare(key);
      queues := queues[key := queues[key] + arrivals];
      MatchAcksEverything(requestId, queues[key]);
      var responseData, raised := DrainAll(key, MatchResponse(requestId), ResponsePollTenths);
      if raised.Some? {
        return Err(raised.value);
      }
      if |responseData| > 0 {
        return Ok(responseData[0]);
      }
      return Err(ResponseTimeout(plugin, tag, requestId, ResponseTimeoutSeconds));
    }
  }
}
