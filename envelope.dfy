/**
 * Message bodies on the plugin-data exchange and the request envelope.
 * A body is a JSON object; requests carry the reserved key "id" next to the
 * caller's fields, responses carry "id" and "data".
 */
module Envelope {
  import opened Wrappers

  datatype Json =
    | JNull
    | JBool(b: bool)
    | JInt(i: int)
    | JStr(s: string)
    | JArray(items: seq<Json>)
    | JObject(fields: map<string, Json>)

  type Body = map<string, Json>

  /** The exceptions the messaging layer raises. */
  datatype RpcError =
    | HostTimeout(host: string)                                              // Timeout from _wait_for_host
    | ResponseTimeout(plugin: string, tag: string, requestId: string, seconds: nat)  // Timeout from receive
    | ReservedKey                                                             // RuntimeError: 'id' in a request body
    | MissingKey(key: string)                                                 // KeyError raised inside a handler
  {
    predicate IsTimeout() { HostTimeout? || ResponseTimeout? }
  }

  /** True when `b` carries the id `requestId` (Python: body['id'] == request_id). */
  predicate HasId(b: Body, requestId: string) {
    "id" in b && b["id"] == JStr(requestId)
  }

  /**
   * Composes a request body: {'id': request_id}, then the caller's fields one
   * by one, failing as soon as a caller field is itself named 'id'. Nothing of
   * the partly built body escapes on failure.
   */
  method ComposeBody(requestId: string, request: Body) returns (r: Result<Body, RpcError>)
    ensures r.Err? <==> "id" in request
    ensures r.Err? ==> r.error == ReservedKey
    ensures r.Ok? ==> HasId(r.value, requestId)
    ensures r.Ok? ==> r.value.Keys == request.Keys + {"id"}
    ensures r.Ok? ==> forall k :: k in request ==> r.value[k] == request[k]
  {
    var body: Body := map["id" := JStr(requestId)];
    var pending := request.Keys;
    while pending != {}
      invariant pending <= request.Keys
      invariant "id" !in request.Keys - pending
      invariant body.Keys == (request.Keys - pending) + {"id"}
      invariant body["id"] == JStr(requestId)
      invariant forall k :: k in request.Keys - pending ==> body[k] == request[k]
      decreases pending
    {
      var k :| k in pending;
      if k == "id" {
        return Err(ReservedKey);
      }
      body := body[k := request[k]];
      pending := pending - {k};
    }
    return Ok(body);
  }

  /** Removing the envelope's id from a composed body gives the caller's request back. */
  lemma ComposedBodyStripsBack(requestId: string, request: Body, body: Body)
    requires "id" !in request
    requires body.Keys == request.Keys + {"id"}
    requires forall k :: k in request ==> body[k] == request[k]
    ensures body - {"id"} == request
  {
    var stripped := body - {"id"};
    assert stripped.Keys == request.Keys;
    forall k | k in stripped ensures stripped[k] == request[k] { }
  }

  /** {'id': request_id, 'data': response_data} */
  function ResponseBody(requestId: string, data: Json): (b: Body)
    ensures HasId(b, requestId) && "data" in b && b["data"] == data
    ensures b.Keys == {"id", "data"}
  {
    map["id" := JStr(requestId), "data" := data]
  }
}
