/**
 * What one pass of `_drain_all` does to a queue, as a function of the queue's
 * contents: each poll round hands the next message to the handler, which may
 * acknowledge it (removing it from the queue), emit values, or raise. A round
 * that delivers nothing ends the pass.
 */
module Drain {
  import opened Wrappers
  import opened Envelope

  /** The two handlers `_drain_all` is used with. */
  datatype Handler =
    | CollectRequest               // receive_all's handle_request
    | MatchResponse(requestId: string)  // receive's handle_response

  /** What a handler does with one delivered message. */
  datatype Reaction = Reaction(acked: bool, out: seq<Json>, raised: Option<RpcError>)

  function Handle(h: Handler, b: Body): (r: Reaction)
    ensures h.MatchResponse? ==> r.acked
    ensures r.raised.None? ==> r.acked
    ensures r.raised.Some? ==> r.raised.value.MissingKey?
    ensures |r.out| <= 1
  {
    match h
    case CollectRequest =>
      // the log line reads body['id'] before the append and the ack
      if "id" !in b then Reaction(false, [], Some(MissingKey("id")))
      else Reaction(true, [JObject(b)], None)
    case MatchResponse(id) =>
      // try/except KeyError/else/finally: the ack in `finally` always runs
      if "id" !in b then Reaction(true, [], None)
      else if b["id"] != JStr(id) then Reaction(true, [], None)
      else if "data" !in b then Reaction(true, [], Some(MissingKey("data")))
      else Reaction(true, [b["data"]], None)
  }

  /** Values emitted, messages left in the queue, and the exception that ended the pass, if any. */
  datatype Pass = Pass(out: seq<Json>, rest: seq<Body>, raised: Option<RpcError>)

  function Drained(h: Handler, q: seq<Body>): (p: Pass)
    ensures p.raised.Some? ==> p.raised.value.MissingKey?
    ensures |p.out| <= |q| && |p.rest| <= |q|
    decreases |q|
  {
    if q == [] then Pass([], [], None)
    else
      var r := Handle(h, q[0]);
      var kept := if r.acked then [] else [q[0]];
      if r.raised.Some? then Pass(r.out, kept + q[1..], r.raised)
      else
        var p := Drained(h, q[1..]);
        Pass(r.out + p.out, kept + p.rest, p.raised)
  }

  // ---- receive_all -------------------------------------------------------

  predicate AllHaveIds(q: seq<Body>) { forall i :: 0 <= i < |q| ==> "id" in q[i] }

  function AsObjects(q: seq<Body>): (r: seq<Json>)
    ensures |r| == |q| && forall i :: 0 <= i < |q| ==> r[i] == JObject(q[i])
  {
    seq(|q|, i requires 0 <= i < |q| => JObject(q[i]))
  }

  /** Draining well-formed requests yields every body in queue order and empties the queue. */
  lemma {:induction false} CollectAll(q: seq<Body>)
    requires AllHaveIds(q)
    ensures Drained(CollectRequest, q) == Pass(AsObjects(q), [], None)
    decreases |q|
  {
    if q != [] {
      CollectAll(q[1..]);
      assert AsObjects(q) == [JObject(q[0])] + AsObjects(q[1..]);
    }
  }

  /** Index of the first request without an id, if any. */
  function FirstMissingId(q: seq<Body>): (r: Option<nat>)
    ensures r.Some? ==> r.value < |q| && "id" !in q[r.value] && AllHaveIds(q[..r.value])
    ensures r.None? <==> AllHaveIds(q)
    decreases |q|
  {
    if q == [] then None
    else if "id" !in q[0] then Some(0)
    else match FirstMissingId(q[1..])
      case None => None
      case Some(k) =>
        assert q[..k + 1] == [q[0]] + q[1..][..k];
        Some(k + 1)
  }

  /**
   * A request without an id stops the pass with a KeyError: the bodies before
   * it are acknowledged (the values emitted for them go down with the
   * exception), it and everything after it stay queued.
   */
  lemma {:induction false} CollectStopsAtMissingId(q: seq<Body>, k: nat)
    requires k < |q| && "id" !in q[k] && AllHaveIds(q[..k])
    ensures Drained(CollectRequest, q) == Pass(AsObjects(q[..k]), q[k..], Some(MissingKey("id")))
    decreases k
  {
    if k > 0 {
      assert q[1..][..k - 1] == q[1..k];
      CollectStopsAtMissingId(q[1..], k - 1);
      assert q[1..][k - 1..] == q[k..];
      assert AsObjects(q[..k]) == [JObject(q[0])] + AsObjects(q[1..k]);
    }
  }

  // ---- receive -----------------------------------------------------------

  /**
   * Every message that receive's handler sees is acknowledged, whatever it
   * holds, so a pass that raises nothing empties the queue.
   */
  lemma {:induction false} MatchAcksEverything(id: string, q: seq<Body>)
    ensures Drained(MatchResponse(id), q).raised.None? ==> Drained(MatchResponse(id), q).rest == []
    decreases |q|
  {
    if q != [] { MatchAcksEverything(id, q[1..]); }
  }

  /** Index of the first message carrying `id`, if any. */
  function FirstWithId(id: string, q: seq<Body>): (r: Option<nat>)
    ensures r.Some? ==> r.value < |q| && HasId(q[r.value], id)
    ensures r.Some? ==> forall j :: 0 <= j < r.value ==> !HasId(q[j], id)
    ensures r.None? ==> forall j :: 0 <= j < |q| ==> !HasId(q[j], id)
    decreases |q|
  {
    if q == [] then None
    else if HasId(q[0], id) then Some(0)
    else match FirstWithId(id, q[1..])
      case None => None
      case Some(k) => Some(k + 1)
  }

  predicate MatchesCarryData(id: string, q: seq<Body>) {
    forall i :: 0 <= i < |q| && HasId(q[i], id) ==> "data" in q[i]
  }

  /** Without a matching message, receive's pass emits nothing and raises nothing. */
  lemma {:induction false} MatchNoneEmitsNothing(id: string, q: seq<Body>)
    requires forall j :: 0 <= j < |q| ==> !HasId(q[j], id)
    ensures Drained(MatchResponse(id), q) == Pass([], [], None)
    decreases |q|
  {
    if q != [] { MatchNoneEmitsNothing(id, q[1..]); }
  }

  /** When every matching message carries data, the first value emitted is the first match's data. */
  lemma {:induction false} MatchFirstWins(id: string, q: seq<Body>, k: nat)
    requires k < |q| && HasId(q[k], id) && MatchesCarryData(id, q)
    requires forall j :: 0 <= j < k ==> !HasId(q[j], id)
    ensures var p := Drained(MatchResponse(id), q);
      p.raised.None? && |p.out| >= 1 && p.out[0] == q[k]["data"]
    decreases k
  {
    if k > 0 {
      MatchFirstWins(id, q[1..], k - 1);
    } else {
      MatchCarryingDataNeverRaises(id, q[1..]);
    }
  }

  lemma {:induction false} MatchCarryingDataNeverRaises(id: string, q: seq<Body>)
    requires MatchesCarryData(id, q)
    ensures Drained(MatchResponse(id), q).raised.None?
    decreases |q|
  {
    if q != [] { MatchCarryingDataNeverRaises(id, q[1..]); }
  }

  /** A matching message without "data" makes receive's pass raise KeyError('data'). */
  lemma {:induction false} MatchWithoutDataRaises(id: string, q: seq<Body>, k: nat)
    requires k < |q| && HasId(q[k], id) && "data" !in q[k]
    ensures Drained(MatchResponse(id), q).raised == Some(MissingKey("data"))
    decreases k
  {
    if k > 0 {
      var r := Handle(MatchResponse(id), q[0]);
      if r.raised.None? { MatchWithoutDataRaises(id, q[1..], k - 1); }
    }
  }

  /** The response window of receive, fixed at 30 seconds whatever timeout the caller passes. */
  const ResponseTimeoutSeconds: nat := 30

  /** What PluginResponse.receive returns or raises for the response queue `q`. */
  function ReceiveOutcome(plugin: string, tag: string, id: string, q: seq<Body>): Result<Json, RpcError> {
    var p := Drained(MatchResponse(id), q);
    if p.raised.Some? then Err(p.raised.value)
    else if |p.out| > 0 then Ok(p.out[0])
    else Err(ResponseTimeout(plugin, tag, id, ResponseTimeoutSeconds))
  }

  /**
   * receive returns the data of the first message carrying the id (messages
   * before it, malformed or for other ids, are dropped); with no such message
   * it raises Timeout naming the 30-second window; a matching message without
   * data raises KeyError.
   */
  lemma ReceiveOutcomeCases(plugin: string, tag: string, id: string, q: seq<Body>)
    ensures FirstWithId(id, q).None? ==>
      ReceiveOutcome(plugin, tag, id, q) == Err(ResponseTimeout(plugin, tag, id, 30))
    ensures FirstWithId(id, q).Some? && MatchesCarryData(id, q) ==>
      ReceiveOutcome(plugin, tag, id, q) == Ok(q[FirstWithId(id, q).value]["data"])
    ensures !MatchesCarryData(id, q) ==>
      ReceiveOutcome(plugin, tag, id, q) == Err(MissingKey("data"))
  {
    match FirstWithId(id, q)
    case None => MatchNoneEmitsNothing(id, q);
    case Some(k) =>
      if MatchesCarryData(id, q) {
        MatchFirstWins(id, q, k);
      } else {
        var j :| 0 <= j < |q| && HasId(q[j], id) && "data" !in q[j];
        MatchWithoutDataRaises(id, q, j);
      }
  }

  /**
   * Round trip: when nothing queued carries the id, a response published for
   * it is what receive returns.
   */
  lemma ReceiveReturnsPublishedData(plugin: string, tag: string, id: string, q: seq<Body>, data: Json)
    requires forall j :: 0 <= j < |q| ==> !HasId(q[j], id)
    ensures ReceiveOutcome(plugin, tag, id, q + [ResponseBody(id, data)]) == Ok(data)
  {
    var q' := q + [ResponseBody(id, data)];
    assert HasId(q'[|q|], id);
    assert forall j :: 0 <= j < |q| ==> !HasId(q'[j], id) by {
      forall j | 0 <= j < |q| ensures !HasId(q'[j], id) { assert q'[j] == q[j]; }
    }
    assert MatchesCarryData(id, q') by {
      forall i | 0 <= i < |q'| && HasId(q'[i], id) ensures "data" in q'[i] { }
    }
    assert FirstWithId(id, q') == Some(|q|);
    ReceiveOutcomeCases(plugin, tag, id, q');
  }

  /**
   * A reply that arrives during receive's window is returned: when nothing
   * queued before it carries the id, and every later message carrying the id
   * also carries data, receive returns the reply's data.
   */
  lemma ReplyDuringWindowIsReturned(plugin: string, tag: string, id: string, q: seq<Body>,
                                    arrivals: seq<Body>, k: nat, data: Json)
    requires forall j :: 0 <= j < |q| ==> !HasId(q[j], id)
    requires k < |arrivals| && arrivals[k] == ResponseBody(id, data)
    requires forall j :: 0 <= j < k ==> !HasId(arrivals[j], id)
    requires MatchesCarryData(id, arrivals)
    ensures ReceiveOutcome(plugin, tag, id, q + arrivals) == Ok(data)
  {
    var w := q + arrivals;
    assert w[|q| + k] == arrivals[k];
    assert forall j :: 0 <= j < |q| + k ==> !HasId(w[j], id) by {
      forall j | 0 <= j < |q| + k ensures !HasId(w[j], id) {
        if j < |q| { assert w[j] == q[j]; } else { assert w[j] == arrivals[j - |q|]; }
      }
    }
    assert MatchesCarryData(id, w) by {
      forall i | 0 <= i < |w| && HasId(w[i], id) ensures "data" in w[i] {
        if i >= |q| { assert w[i] == arrivals[i - |q|]; }
      }
    }
    MatchFirstWins(id, w, |q| + k);
  }

  // ---- revoke ------------------------------------------------------------

  /**
   * The single poll round of revoke: the head message is acknowledged when
   * its id is the target; a head without an id raises KeyError; everything
   * else is left in place.
   */
  function RevokeRound(id: string, q: seq<Body>): Result<seq<Body>, RpcError> {
    if q == [] then Ok(q)
    else if "id" !in q[0] then Err(MissingKey("id"))
    else if q[0]["id"] == JStr(id) then Ok(q[1..])
    else Ok(q)
  }

  /**
   * revoke removes at most one message, and only one carrying the target id;
   * the order of the others is kept. A request already consumed (or not at
   * the head) is left as it is.
   */
  lemma RevokeRoundEffect(id: string, q: seq<Body>)
    ensures RevokeRound(id, q).Ok? ==>
      var q' := RevokeRound(id, q).value;
      (q' == q || (q != [] && HasId(q[0], id) && q' == q[1..]))
    ensures RevokeRound(id, q).Err? <==> q != [] && "id" !in q[0]
    ensures q != [] && HasId(q[0], id) ==> RevokeRound(id, q) == Ok(q[1..])
    ensures (forall j :: 0 <= j < |q| ==> !HasId(q[j], id)) && (q == [] || "id" in q[0]) ==>
      RevokeRound(id, q) == Ok(q)
  {
  }
}
