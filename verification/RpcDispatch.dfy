/** The server's dispatcher: one response to each call, carrying the call's id. */
module RpcDispatch {
  import opened Serialization
  import opened Protocol

  datatype HandlerResult = Returned(result: Wire) | Threw(message: string, trace: string)

  type Handler = Wire -> HandlerResult

  datatype Answer = Response(fields: Fields) | Unhashable

  /** What the surroundings contribute to a response: a fresh id, the clock, the measured time, `str` of the method. */
  datatype Ambient = Ambient(uuid: string, now: real, duration: real, shown: string)

  function MethodOf(msg: Fields): Wire {
    Or(msg.methodName, WStr(""))
  }

  predicate HasHandler(handlers: map<string, Handler>, msg: Fields) {
    MethodOf(msg).WStr? && MethodOf(msg).s in handlers
  }

  function Timed(response: Fields, duration: real): Fields
    requires response.metadata.WDict?
  {
    response.(metadata := WDict(response.metadata.entries["duration_ms" := WFloat(duration)]))
  }

  function Settled(msg: Fields, outcome: HandlerResult, a: Ambient): Fields {
    match outcome
    case Returned(result) => Timed(MakeResult(msg.id, result, a.uuid, a.now), a.duration)
    case Threw(message, trace) => MakeError(msg.id, "EXECUTION_ERROR", message, WStr(trace), a.uuid, a.now)
  }

  /** The response to a call; a method that cannot be looked up escapes as an exception. */
  function Answered(handlers: map<string, Handler>, msg: Fields, a: Ambient): Answer {
    var name := MethodOf(msg);
    if name.WList? || name.WDict? then Unhashable
    else if !HasHandler(handlers, msg) then
      Response(MakeError(msg.id, "METHOD_NOT_FOUND",
                         "Unknown method: " + (if name.WStr? then name.s else a.shown), WNull, a.uuid, a.now))
    else Response(Settled(msg, handlers[name.s](msg.params), a))
  }

  /** Section 5 of the JSON-RPC 2.0 Specification: a response has the call's id and a result or an error, not both. */
  predicate AnswersCall(r: Fields, callId: Wire) {
    r.id == callId && (r.kind == RESULT || r.kind == ERROR) &&
    (r.kind == RESULT ==> r.error == WNull) && (r.kind == ERROR ==> r.result == WNull && Truthy(r.error))
  }

  /** The error a call ends in: no such method, or what the handler threw. */
  predicate Reports(error: Wire, handlers: map<string, Handler>, name: Wire, params: Wire, shown: string) {
    error.WDict? && error.entries.Keys == {"code", "message", "data"} &&
    if name.WStr? && name.s in handlers then
      var outcome := handlers[name.s](params);
      error.entries["code"] == WStr("EXECUTION_ERROR") && outcome.Threw? &&
      error.entries["message"] == WStr(outcome.message) && error.entries["data"] == WStr(outcome.trace)
    else
      error.entries["code"] == WStr("METHOD_NOT_FOUND") && error.entries["data"] == WNull &&
      error.entries["message"] == WStr("Unknown method: " + (if name.WStr? then name.s else shown))
  }

  /** A call is answered unless its method cannot be looked up. The response answers the call, is a result
      with the time it took exactly when a handler of that name returned it, and else says why not; a call
      without a method goes by the empty name. */
  lemma ResponseAnswersCall(handlers: map<string, Handler>, msg: Fields, a: Ambient)
    requires Constructed(msg)
    ensures var name := if Truthy(msg.methodName) then msg.methodName else WStr("");
      var known := name.WStr? && name.s in handlers;
      (Answered(handlers, msg, a).Response? <==> !name.WList? && !name.WDict?) &&
      (Answered(handlers, msg, a).Response? ==>
        var r := Answered(handlers, msg, a).fields;
        Constructed(r) && AnswersCall(r, msg.id) &&
        (r.kind == RESULT <==> known && handlers[name.s](msg.params).Returned?) &&
        (r.kind == RESULT ==>
          Returned(r.result) == handlers[name.s](msg.params) &&
          r.error == WNull && r.metadata == WDict(map["duration_ms" := WFloat(a.duration)])) &&
        (r.kind == ERROR ==> r.result == WNull && Reports(r.error, handlers, name, msg.params, a.shown)))
  {
    var answer := Answered(handlers, msg, a);
    if answer.Response? && answer.fields.kind == ERROR {
      assert "code" in answer.fields.error.entries;
    }
  }

  /** The response survives the wire: the caller reads the same id, result and error. */
  lemma ResponseSurvivesWire(handlers: map<string, Handler>, msg: Fields, a: Ambient, uuid: string, now: real)
    requires Constructed(msg) && Answered(handlers, msg, a).Response?
    ensures var r := Answered(handlers, msg, a).fields;
      Decoded(Encoded(r), uuid, now) == Message(r.(timestamp := now))
  {
    ResponseAnswersCall(handlers, msg, a);
    RoundTrips(Answered(handlers, msg, a).fields, uuid, now);
  }

  /** The caller's own id comes back exactly when it is truthy; an empty one is replaced on arrival. */
  lemma IdIsEchoedIff(handlers: map<string, Handler>, d: map<string, Wire>, a: Ambient, uuid: string, now: real)
    requires uuid != "" && Decoded(d, uuid, now).Message?
    requires Answered(handlers, Decoded(d, uuid, now).fields, a).Response?
    ensures Answered(handlers, Decoded(d, uuid, now).fields, a).fields.id == Get(d, "id", WNull) <==>
      Truthy(Get(d, "id", WNull))
  {
    ReadingFailsIff(d, uuid, now);
    ResponseAnswersCall(handlers, Decoded(d, uuid, now).fields, a);
  }

  class RPCDispatcher {
    var handlers: map<string, Handler>

    constructor ()
      ensures handlers == map[]
    {
      handlers := map[];
    }

    method Register(name: string, handler: Handler)
      modifies this
      ensures handlers == old(handlers)[name := handler]
    {
      handlers := handlers[name := handler];
    }

    method Dispatch(msg: RPCMessage, a: Ambient) returns (response: RPCMessage?)
      requires a.uuid != "" && Constructed(msg.Spec())
      ensures response == null <==> Answered(handlers, msg.Spec(), a).Unhashable?
      ensures response != null ==>
        fresh(response) && Answered(handlers, msg.Spec(), a) == Response(response.Spec())
    {
      var name := if Truthy(msg.methodName) then msg.methodName else WStr("");
      if name.WList? || name.WDict? {
        return null;
      }
      if !(name.WStr? && name.s in handlers) {
        var text := "Unknown method: " + (if name.WStr? then name.s else a.shown);
        response := NewError(msg.id, "METHOD_NOT_FOUND", text, WNull, a);
        return;
      }
      match handlers[name.s](msg.params) {
        case Returned(result) =>
          response := new RPCMessage(RESULT, WNull, WNull, result, WNull, msg.id, WNull, a.uuid, a.now);
          response.metadata := WDict(response.metadata.entries["duration_ms" := WFloat(a.duration)]);
        case Threw(message, trace) =>
          response := NewError(msg.id, "EXECUTION_ERROR", message, WStr(trace), a);
      }
    }

    method NewError(callId: Wire, code: string, message: string, data: Wire, a: Ambient)
      returns (response: RPCMessage)
      requires a.uuid != ""
      ensures fresh(response) && response.Spec() == MakeError(callId, code, message, data, a.uuid, a.now)
    {
      var error := WDict(map["code" := WStr(code), "message" := WStr(message), "data" := data]);
      response := new RPCMessage(ERROR, WNull, WNull, WNull, error, callId, WNull, a.uuid, a.now);
    }
  }
}
