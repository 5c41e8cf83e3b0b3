/** Messages of the remote-call protocol and their dictionary form. */
module Protocol {
  import opened Serialization

  datatype MessageType =
    | CALL | RESULT | ERROR
    | STREAM_START | STREAM_CHUNK | STREAM_END
    | HEARTBEAT | HEARTBEAT_ACK
    | SESSION_INIT | SESSION_ACK | SESSION_END
    | NOTIFY | LOG | PROGRESS

  function TypeText(t: MessageType): string {
    match t
    case CALL => "rpc.call"
    case RESULT => "rpc.result"
    case ERROR => "rpc.error"
    case STREAM_START => "rpc.stream.start"
    case STREAM_CHUNK => "rpc.stream.chunk"
    case STREAM_END => "rpc.stream.end"
    case HEARTBEAT => "rpc.heartbeat"
    case HEARTBEAT_ACK => "rpc.heartbeat.ack"
    case SESSION_INIT => "session.init"
    case SESSION_ACK => "session.ack"
    case SESSION_END => "session.end"
    case NOTIFY => "rpc.notify"
    case LOG => "rpc.log"
    case PROGRESS => "rpc.progress"
  }

  const TYPES: seq<MessageType> := [
    CALL, RESULT, ERROR, STREAM_START, STREAM_CHUNK, STREAM_END, HEARTBEAT, HEARTBEAT_ACK,
    SESSION_INIT, SESSION_ACK, SESSION_END, NOTIFY, LOG, PROGRESS
  ]

  function Lookup(w: Wire, types: seq<MessageType>): Option<MessageType> {
    if types == [] then Nothing
    else if w == WStr(TypeText(types[0])) then Some(types[0])
    else Lookup(w, types[1..])
  }

  /** The enumeration member with that value, if there is one. */
  function TypeOf(w: Wire): Option<MessageType> {
    Lookup(w, TYPES)
  }

  /** The fields of a message. The id, the parameters and the metadata may hold any JSON value. */
  datatype Fields = Fields(kind: MessageType, id: Wire, methodName: Wire, params: Wire, result: Wire, error: Wire,
                           metadata: Wire, timestamp: real)

  datatype Parsed = Message(fields: Fields) | ValueError

  const NO_ENTRIES: Wire := WDict(map[])

  /** Python's `w or d`. */
  function Or(w: Wire, d: Wire): Wire {
    if Truthy(w) then w else d
  }

  /** What the constructor makes of its arguments; `uuid` and `now` are what it would draw. */
  function Made(kind: MessageType, methodName: Wire, params: Wire, result: Wire, error: Wire, id: Wire, metadata: Wire,
                uuid: string, now: real): Fields
  {
    Fields(kind, Or(id, WStr(uuid)), methodName, Or(params, NO_ENTRIES), result, error, Or(metadata, NO_ENTRIES), now)
  }

  /** Every message has been through the constructor: its id is truthy, its tables are tables or truthy. */
  predicate Constructed(m: Fields) {
    Truthy(m.id) && (Truthy(m.params) || m.params == NO_ENTRIES) && (Truthy(m.metadata) || m.metadata == NO_ENTRIES)
  }

  /** A key is written only when its value is worth it. */
  function With(d: map<string, Wire>, keep: bool, key: string, w: Wire): map<string, Wire> {
    if keep then d[key := w] else d
  }

  function Header(m: Fields): map<string, Wire> {
    map["jsonrpc" := WStr("2.0"), "type" := WStr(TypeText(m.kind)), "id" := m.id, "timestamp" := WFloat(m.timestamp)]
  }

  /** The dictionary form, as a whole. */
  function Encoded(m: Fields): map<string, Wire> {
    var d1 := With(Header(m), Truthy(m.methodName), "method", m.methodName);
    var d2 := With(d1, Truthy(m.params), "params", m.params);
    var d3 := With(d2, m.result != WNull, "result", m.result);
    var d4 := With(d3, Truthy(m.error), "error", m.error);
    With(d4, Truthy(m.metadata), "metadata", m.metadata)
  }

  function Get(d: map<string, Wire>, key: string, default: Wire): Wire {
    if key in d then d[key] else default
  }

  function Decoded(d: map<string, Wire>, uuid: string, now: real): Parsed {
    match TypeOf(Get(d, "type", WStr("rpc.call")))
    case Nothing => ValueError
    case Some(kind) =>
      Message(Made(kind, Get(d, "method", WNull), Get(d, "params", WNull), Get(d, "result", WNull),
                   Get(d, "error", WNull), Get(d, "id", WNull), Get(d, "metadata", WNull), uuid, now))
  }

  /** `m` as its dictionary form remembers it: an empty method or error is no method or error. */
  function Remembered(m: Fields, now: real): Fields {
    m.(methodName := Or(m.methodName, WNull), error := Or(m.error, WNull), timestamp := now)
  }

  lemma {:induction false} LookupFinds(t: MessageType, w: Wire, types: seq<MessageType>)
    ensures Lookup(w, types) == Some(t) ==> w == WStr(TypeText(t))
    ensures w == WStr(TypeText(t)) && t in types ==> Lookup(w, types) == Some(t)
  {
    if types != [] {
      if w == WStr(TypeText(types[0])) && w == WStr(TypeText(t)) {
        TextIsInjective(types[0], t);
      }
      LookupFinds(t, w, types[1..]);
    }
  }

  lemma TextIsInjective(s: MessageType, t: MessageType)
    requires TypeText(s) == TypeText(t)
    ensures s == t
  {}

  /** The texts name the types one to one. */
  lemma TypeOfIff(t: MessageType, w: Wire)
    ensures TypeOf(w) == Some(t) <==> w == WStr(TypeText(t))
  {
    assert t in TYPES by {
      match t {
        case CALL => assert TYPES[0] == t;
        case RESULT => assert TYPES[1] == t;
        case ERROR => assert TYPES[2] == t;
        case STREAM_START => assert TYPES[3] == t;
        case STREAM_CHUNK => assert TYPES[4] == t;
        case STREAM_END => assert TYPES[5] == t;
        case HEARTBEAT => assert TYPES[6] == t;
        case HEARTBEAT_ACK => assert TYPES[7] == t;
        case SESSION_INIT => assert TYPES[8] == t;
        case SESSION_ACK => assert TYPES[9] == t;
        case SESSION_END => assert TYPES[10] == t;
        case NOTIFY => assert TYPES[11] == t;
        case LOG => assert TYPES[12] == t;
        case PROGRESS => assert TYPES[13] == t;
      }
    }
    LookupFinds(t, w, TYPES);
  }

  /** The texts of the wire, read the other way. */
  function Named(s: string): Option<MessageType> {
    if s == "rpc.call" then Some(CALL)
    else if s == "rpc.result" then Some(RESULT)
    else if s == "rpc.error" then Some(ERROR)
    else if s == "rpc.stream.start" then Some(STREAM_START)
    else if s == "rpc.stream.chunk" then Some(STREAM_CHUNK)
    else if s == "rpc.stream.end" then Some(STREAM_END)
    else if s == "rpc.heartbeat" then Some(HEARTBEAT)
    else if s == "rpc.heartbeat.ack" then Some(HEARTBEAT_ACK)
    else if s == "session.init" then Some(SESSION_INIT)
    else if s == "session.ack" then Some(SESSION_ACK)
    else if s == "session.end" then Some(SESSION_END)
    else if s == "rpc.notify" then Some(NOTIFY)
    else if s == "rpc.log" then Some(LOG)
    else if s == "rpc.progress" then Some(PROGRESS)
    else Nothing
  }

  lemma NamedText(t: MessageType)
    ensures Named(TypeText(t)) == Some(t)
  {}

  lemma NamedIsText(s: string)
    ensures Named(s).Some? ==> s == TypeText(Named(s).value)
  {}

  /** A type is read from the wire exactly by its own text. */
  lemma TypeIsNamed(s: string)
    ensures TypeOf(WStr(s)) == Named(s)
  {
    NamedIsText(s);
    if Named(s).Some? {
      TypeOfIff(Named(s).value, WStr(s));
    } else if TypeOf(WStr(s)).Some? {
      TypeOfIff(TypeOf(WStr(s)).value, WStr(s));
      NamedText(TypeOf(WStr(s)).value);
    }
  }

  lemma WithGet(d: map<string, Wire>, keep: bool, key: string, w: Wire, k: string, default: Wire)
    ensures Get(With(d, keep, key, w), k, default) == if keep && k == key then w else Get(d, k, default)
  {}

  /** Each field can be read off the dictionary. */
  lemma EncodedGet(m: Fields, k: string, default: Wire)
    ensures Get(Encoded(m), k, default) ==
      if k == "metadata" && Truthy(m.metadata) then m.metadata
      else if k == "error" && Truthy(m.error) then m.error
      else if k == "result" && m.result != WNull then m.result
      else if k == "params" && Truthy(m.params) then m.params
      else if k == "method" && Truthy(m.methodName) then m.methodName
      else Get(Header(m), k, default)
  {
    var d1 := With(Header(m), Truthy(m.methodName), "method", m.methodName);
    var d2 := With(d1, Truthy(m.params), "params", m.params);
    var d3 := With(d2, m.result != WNull, "result", m.result);
    var d4 := With(d3, Truthy(m.error), "error", m.error);
    WithGet(Header(m), Truthy(m.methodName), "method", m.methodName, k, default);
    WithGet(d1, Truthy(m.params), "params", m.params, k, default);
    WithGet(d2, m.result != WNull, "result", m.result, k, default);
    WithGet(d3, Truthy(m.error), "error", m.error, k, default);
    WithGet(d4, Truthy(m.metadata), "metadata", m.metadata, k, default);
  }

  /** What is on the wire: the version, type, id and time always, every other field when it is worth it, and
      nothing else. */
  lemma EncodedHolds(m: Fields)
    ensures var d := Encoded(m);
      "jsonrpc" in d && d["jsonrpc"] == WStr("2.0") && "type" in d && d["type"] == WStr(TypeText(m.kind)) &&
      "id" in d && d["id"] == m.id && "timestamp" in d && d["timestamp"] == WFloat(m.timestamp) &&
      ("method" in d <==> Truthy(m.methodName)) && ("params" in d <==> Truthy(m.params)) &&
      ("result" in d <==> m.result != WNull) && ("error" in d <==> Truthy(m.error)) &&
      ("metadata" in d <==> Truthy(m.metadata)) &&
      d.Keys <= {"jsonrpc", "type", "id", "timestamp", "method", "params", "result", "error", "metadata"}
  {
    EncodedGet(m, "jsonrpc", WNull);
    EncodedGet(m, "timestamp", WNull);
  }

  lemma HeaderGet(m: Fields, default: Wire)
    ensures Get(Header(m), "type", default) == WStr(TypeText(m.kind)) && Get(Header(m), "id", default) == m.id
    ensures forall k | k in {"method", "params", "result", "error", "metadata"} :: Get(Header(m), k, default) == default
  {}

  /** Writing a message and reading it back keeps all but empty methods and errors, and the time. */
  lemma RoundTrips(m: Fields, uuid: string, now: real)
    requires Constructed(m)
    ensures Decoded(Encoded(m), uuid, now) == Message(Remembered(m, now))
  {
    TypeOfIff(m.kind, WStr(TypeText(m.kind)));
    HeaderGet(m, WNull);
    HeaderGet(m, WStr("rpc.call"));
    EncodedGet(m, "type", WStr("rpc.call"));
    EncodedGet(m, "id", WNull);
    EncodedGet(m, "method", WNull);
    EncodedGet(m, "params", WNull);
    EncodedGet(m, "result", WNull);
    EncodedGet(m, "error", WNull);
    EncodedGet(m, "metadata", WNull);
  }

  /** Nothing but the time changes exactly when the message carries no empty method or error. */
  lemma RoundTripIsExactIff(m: Fields, uuid: string)
    requires Constructed(m)
    ensures Decoded(Encoded(m), uuid, m.timestamp) == Message(m) <==>
      (Truthy(m.methodName) || m.methodName == WNull) && (Truthy(m.error) || m.error == WNull)
  {
    RoundTrips(m, uuid, m.timestamp);
  }

  /** What is read has been constructed; reading fails exactly on a type that is no type's text. */
  lemma ReadingFailsIff(d: map<string, Wire>, uuid: string, now: real)
    requires uuid != ""
    ensures Decoded(d, uuid, now).ValueError? <==>
      "type" in d && forall t: MessageType :: d["type"] != WStr(TypeText(t))
    ensures Decoded(d, uuid, now).Message? ==> Constructed(Decoded(d, uuid, now).fields)
  {
    var w := Get(d, "type", WStr("rpc.call"));
    forall t: MessageType ensures TypeOf(w) == Some(t) <==> w == WStr(TypeText(t)) {
      TypeOfIff(t, w);
    }
    if "type" !in d {
      assert TypeText(CALL) == "rpc.call";
    }
  }

  // ---- Helper constructors --------------------------------------------------

  function MakeCall(name: Wire, params: Wire, uuid: string, now: real): Fields {
    Made(CALL, name, params, WNull, WNull, WNull, WNull, uuid, now)
  }

  function MakeResult(callId: Wire, result: Wire, uuid: string, now: real): Fields {
    Made(RESULT, WNull, WNull, result, WNull, callId, WNull, uuid, now)
  }

  function MakeError(callId: Wire, code: string, message: string, data: Wire, uuid: string, now: real): Fields {
    Made(ERROR, WNull, WNull, WNull, WDict(map["code" := WStr(code), "message" := WStr(message), "data" := data]),
         callId, WNull, uuid, now)
  }

  function MakeStreamStart(callId: Wire, metadata: Wire, uuid: string, now: real): Fields {
    Made(STREAM_START, WNull, WNull, WNull, WNull, callId, metadata, uuid, now)
  }

  function MakeStreamChunk(callId: Wire, data: Wire, index: int, uuid: string, now: real): Fields {
    Made(STREAM_CHUNK, WNull, WNull, data, WNull, callId, WDict(map["index" := WInt(index)]), uuid, now)
  }

  function MakeStreamEnd(callId: Wire, uuid: string, now: real): Fields {
    Made(STREAM_END, WNull, WNull, WNull, WNull, callId, WNull, uuid, now)
  }

  /** The message object. */
  class RPCMessage {
    var kind: MessageType
    var id: Wire
    var methodName: Wire
    var params: Wire
    var result: Wire
    var error: Wire
    var metadata: Wire
    var timestamp: real

    ghost function Spec(): Fields
      reads this
    {
      Fields(kind, id, methodName, params, result, error, metadata, timestamp)
    }

    constructor (kind: MessageType, methodName: Wire, params: Wire, result: Wire, error: Wire, id: Wire, metadata: Wire,
                 uuid: string, now: real)
      requires uuid != ""
      ensures Spec() == Made(kind, methodName, params, result, error, id, metadata, uuid, now)
    {
      this.kind := kind;
      this.id := Or(id, WStr(uuid));
      this.methodName := methodName;
      this.params := Or(params, NO_ENTRIES);
      this.result := result;
      this.error := error;
      this.timestamp := now;
      this.metadata := Or(metadata, NO_ENTRIES);
    }

    method ToDict() returns (msg: map<string, Wire>)
      ensures msg == Encoded(Spec())
    {
      msg := map["jsonrpc" := WStr("2.0"), "type" := WStr(TypeText(kind)), "id" := id,
                 "timestamp" := WFloat(timestamp)];
      if Truthy(methodName) {
        msg := msg["method" := methodName];
      }
      if Truthy(params) {
        msg := msg["params" := params];
      }
      if result != WNull {
        msg := msg["result" := result];
      }
      if Truthy(error) {
        msg := msg["error" := error];
      }
      if Truthy(metadata) {
        msg := msg["metadata" := metadata];
      }
    }
  }
}
