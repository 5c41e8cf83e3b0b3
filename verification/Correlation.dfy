/** Matching replies to calls: the pending tables of the daemon and of the cloud session. */
module Correlation {
  import opened Serialization
  import opened Protocol
  import opened RpcDispatch

  /** What has become of the future made for a call. */
  datatype Fate = Waiting | Delivered(result: Wire) | Failed(reason: Wire) | Cancelled

  /** The pending table, and the futures handed out so far, both by call id. */
  datatype Core = Core(pending: set<string>, futures: map<string, Fate>)

  /** The texts a client falls back on when an error has no message, or a reply no error. */
  datatype Defaults = Defaults(noMessage: Wire, noError: Wire)

  const DAEMON: Defaults := Defaults(WStr("Unknown error"), WStr("Unknown"))
  const SESSION: Defaults := Defaults(WStr("Remote error"), WStr("Remote error"))

  predicate IsReply(m: Fields) {
    m.kind == RESULT || m.kind == ERROR
  }

  predicate IsReplyTo(m: Fields, id: string) {
    IsReply(m) && m.id == WStr(id)
  }

  /** What a reply settles a future with. An error that is no table raises while it is being read. */
  function Verdict(c: Defaults, m: Fields): Option<Fate>
    requires IsReply(m)
  {
    if m.kind == RESULT then Some(Delivered(m.result))
    else if !Truthy(m.error) then Some(Failed(c.noError))
    else if m.error.WDict? then Some(Failed(Get(m.error.entries, "message", c.noMessage)))
    else Nothing
  }

  function Issued(s: Core, id: string): Core {
    Core(s.pending + {id}, s.futures[id := Waiting])
  }

  function Received(c: Defaults, s: Core, m: Fields): Core {
    if IsReply(m) && m.id.WStr? && m.id.s in s.pending then
      var id := m.id.s;
      var verdict := Verdict(c, m);
      Core(s.pending - {id},
           if id in s.futures && s.futures[id] == Waiting && verdict.Some? then s.futures[id := verdict.value]
           else s.futures)
    else s
  }

  /** The caller stops waiting; its entry stays in the table. */
  function Expired(s: Core, id: string): Core {
    if id in s.futures && s.futures[id] == Waiting then s.(futures := s.futures[id := Cancelled]) else s
  }

  // ---- The two clients ------------------------------------------------------

  /** How far a call got: refused, registered but not sent, or waiting for its reply. */
  datatype Progress = NotConnected | SendRaised | Awaiting

  class CpipDaemon {
    var connected: bool
    var pending: set<string>
    var futures: map<string, Fate>
    var sent: seq<map<string, Wire>>

    ghost function Spec(): Core
      reads this
    {
      Core(pending, futures)
    }

    constructor ()
      ensures !connected && Spec() == Core({}, map[]) && sent == []
    {
      connected, pending, futures, sent := false, {}, map[], [];
    }

    /**
     * Up to the await: register the future, then send. Without a connection nothing is registered;
     * a send that raises leaves the entry behind.
     */
    method RpcCall(name: Wire, params: Wire, sends: bool, uuid: string, now: real) returns (progress: Progress)
      requires uuid != ""
      modifies this
      ensures connected == old(connected)
      ensures progress == if !connected then NotConnected else if sends then Awaiting else SendRaised
      ensures Spec() == if progress == NotConnected then old(Spec()) else Issued(old(Spec()), uuid)
      ensures sent == old(sent) +
        (if progress == Awaiting then [Encoded(MakeCall(name, params, uuid, now))] else [])
    {
      if !connected {
        return NotConnected;
      }
      var msg := new RPCMessage(CALL, name, params, WNull, WNull, WNull, WNull, uuid, now);
      futures := futures[uuid := Waiting];
      pending := pending + {uuid};
      if !sends {
        return SendRaised;
      }
      var d := msg.ToDict();
      sent := sent + [d];
      return Awaiting;
    }

    /** `dispatched` is what the daemon's own handler returns for a call from the server, nothing if it
        raises; `sends` is whether the socket takes the answer. The connection loop goes on either way. */
    method HandleMessage(msg: RPCMessage, dispatched: Option<Wire>, sends: bool, uuid: string, now: real)
      requires uuid != "" && Constructed(msg.Spec()) && this.Spec().pending <= this.Spec().futures.Keys
      modifies this
      ensures connected == old(connected)
      ensures Spec() == Received(DAEMON, old(Spec()), msg.Spec())
      ensures sent == old(sent) + (
        if !connected || !sends then []
        else if msg.kind == HEARTBEAT then
          [Encoded(Made(HEARTBEAT_ACK, WNull, WNull, WNull, WNull, msg.id, WNull, uuid, now))]
        else if msg.kind == CALL && dispatched.Some? then
          [Encoded(MakeResult(msg.id, dispatched.value, uuid, now))]
        else [])
    {
      match msg.kind {
        case HEARTBEAT =>
          if connected && sends {
            var ack := new RPCMessage(HEARTBEAT_ACK, WNull, WNull, WNull, WNull, msg.id, WNull, uuid, now);
            var d := ack.ToDict();
            sent := sent + [d];
          }
        case RESULT =>
          if msg.id.WStr? && msg.id.s in pending {
            pending := pending - {msg.id.s};
            if futures[msg.id.s] == Waiting {
              futures := futures[msg.id.s := Delivered(msg.result)];
            }
          }
        case ERROR =>
          if msg.id.WStr? && msg.id.s in pending {
            pending := pending - {msg.id.s};
            if futures[msg.id.s] == Waiting {
              if !Truthy(msg.error) {
                futures := futures[msg.id.s := Failed(WStr("Unknown"))];
              } else if msg.error.WDict? {
                futures := futures[msg.id.s := Failed(Get(msg.error.entries, "message", WStr("Unknown error")))];
              }
            }
          }
        case CALL =>
          if dispatched.Some? && connected && sends {
            var response := new RPCMessage(RESULT, WNull, WNull, dispatched.value, WNull, msg.id, WNull, uuid, now);
            var d := response.ToDict();
            sent := sent + [d];
          }
        case _ =>
      }
    }

    method Expire(id: string)
      modifies this
      ensures Spec() == Expired(old(Spec()), id) && connected == old(connected) && sent == old(sent)
    {
      if id in futures && futures[id] == Waiting {
        futures := futures[id := Cancelled];
      }
    }
  }

  class CloudSession {
    var connected: bool
    var pending: set<string>
    var futures: map<string, Fate>
    var sent: seq<map<string, Wire>>

    ghost function Spec(): Core
      reads this
    {
      Core(pending, futures)
    }

    constructor ()
      ensures !connected && Spec() == Core({}, map[]) && sent == []
    {
      connected, pending, futures, sent := false, {}, map[], [];
    }

    /** Up to the await: the future is registered even when there is no socket to send on. */
    method AsyncExecute(name: string, args: Value, kwargs: Value, sessionId: string, sends: bool,
                        uuid: string, now: real)
      returns (progress: Progress)
      requires uuid != "" && kwargs.Dict?
      modifies this
      ensures connected == old(connected)
      ensures progress == if connected && !sends then SendRaised else Awaiting
      ensures Spec() == Issued(old(Spec()), uuid)
      ensures sent == old(sent) +
        (if connected && sends
         then [Encoded(MakeCall(WStr("exec.call"), ExecParams(name, args, kwargs, sessionId), uuid, now))]
         else [])
    {
      var serializedArgs := SerializeArgs(args);
      var serializedKwargs := if kwargs.entries != map[] then SerializeArgs(kwargs) else WDict(map[]);
      var params := WDict(map["session_id" := WStr(sessionId), "method" := WStr(name),
                              "args" := serializedArgs, "kwargs" := serializedKwargs]);
      assert params == ExecParams(name, args, kwargs, sessionId);
      var msg := new RPCMessage(CALL, WStr("exec.call"), params, WNull, WNull, WNull, WNull, uuid, now);
      futures := futures[uuid := Waiting];
      pending := pending + {uuid};
      if connected {
        if !sends {
          return SendRaised;
        }
        var d := msg.ToDict();
        sent := sent + [d];
      }
      return Awaiting;
    }

    /** One turn of the receive loop. */
    method OnMessage(msg: RPCMessage)
      requires this.Spec().pending <= this.Spec().futures.Keys
      modifies this
      ensures Spec() == Received(SESSION, old(Spec()), msg.Spec()) && connected == old(connected) && sent == old(sent)
    {
      if msg.kind == RESULT || msg.kind == ERROR {
        if msg.id.WStr? && msg.id.s in pending {
          pending := pending - {msg.id.s};
          if futures[msg.id.s] == Waiting {
            if msg.kind == RESULT {
              futures := futures[msg.id.s := Delivered(msg.result)];
            } else if !Truthy(msg.error) {
              futures := futures[msg.id.s := Failed(WStr("Remote error"))];
            } else if msg.error.WDict? {
              futures := futures[msg.id.s := Failed(Get(msg.error.entries, "message", WStr("Remote error")))];
            }
          }
        }
      }
    }

    method Expire(id: string)
      modifies this
      ensures Spec() == Expired(old(Spec()), id) && connected == old(connected) && sent == old(sent)
    {
      if id in futures && futures[id] == Waiting {
        futures := futures[id := Cancelled];
      }
    }
  }

  function ExecParams(name: string, args: Value, kwargs: Value, sessionId: string): Wire {
    WDict(map["session_id" := WStr(sessionId), "method" := WStr(name),
              "args" := SerializeArgs(args), "kwargs" := SerializeArgs(kwargs)])
  }

  /** A message as it is read at the other end. */
  function Read(m: Fields, uuid: string, now: real): Fields {
    match Decoded(Encoded(m), uuid, now)
    case Message(fields) => fields
    case ValueError => m
  }

  lemma CallArrives(name: string, params: Wire, uuid: string, now: real, readUuid: string, readNow: real)
    requires uuid != "" && name != "" && Truthy(params)
    ensures var m := Read(MakeCall(WStr(name), params, uuid, now), readUuid, readNow);
            m.kind == CALL && m.id == WStr(uuid) && m.methodName == WStr(name) && m.params == params
  {
    RoundTrips(MakeCall(WStr(name), params, uuid, now), readUuid, readNow);
  }

  lemma EntriesOf(params: Wire, name: string, args: Wire, kwargs: Wire, sessionId: string)
    requires params == WDict(map["session_id" := WStr(sessionId), "method" := WStr(name),
                                 "args" := args, "kwargs" := kwargs])
    ensures Truthy(params) && params.entries.Keys == {"session_id", "method", "args", "kwargs"}
    ensures params.entries["session_id"] == WStr(sessionId) && params.entries["method"] == WStr(name)
    ensures params.entries["args"] == args && params.entries["kwargs"] == kwargs
  {
    assert "args" in params.entries;
  }

  /** A remote execution as the far end reads it: the call's id, the function and the session it is for,
      its positional arguments, and, unless they happen to look like an encoded value, its keyword
      arguments, each in its own place. */
  lemma ExecCallArrives(env: Env, name: string, args: seq<Value>, kwargs: map<string, Value>, sessionId: string,
                        uuid: string, now: real, readUuid: string, readNow: real)
    requires uuid != "" && WellFormed(Tuple(args)) && WellFormed(Dict(kwargs))
    ensures var params := ExecParams(name, Tuple(args), Dict(kwargs), sessionId);
            var m := Read(MakeCall(WStr("exec.call"), params, uuid, now), readUuid, readNow);
            && m.kind == CALL && m.id == WStr(uuid) && m.methodName == WStr("exec.call")
            && m.params.WDict? && m.params.entries.Keys == {"session_id", "method", "args", "kwargs"}
            && m.params.entries["session_id"] == WStr(sessionId) && m.params.entries["method"] == WStr(name)
            && Deserialize(env, m.params.entries["args"]) == Expected(Tuple(args))
            && (Deserialize(env, m.params.entries["kwargs"]) == Ok(Listified(Dict(kwargs))) <==>
                  KwargsSurvive(env, kwargs))
  {
    var wargs, wkwargs := SerializeArgs(Tuple(args)), SerializeArgs(Dict(kwargs));
    var params := ExecParams(name, Tuple(args), Dict(kwargs), sessionId);
    ArgsRoundTrip(env, Tuple(args));
    KwargsRoundTripIff(env, kwargs);
    EntriesOf(params, name, wargs, wkwargs, sessionId);
    CallArrives("exec.call", params, uuid, now, readUuid, readNow);
  }

  /** What a call comes to when a server with those handlers answers it. */
  function OutcomeOf(handlers: map<string, Handler>, call: Fields, shown: string): Fate {
    var name := if Truthy(call.methodName) then call.methodName else WStr("");
    if !name.WStr? then Failed(WStr("Unknown method: " + shown))
    else if name.s !in handlers then Failed(WStr("Unknown method: " + name.s))
    else match handlers[name.s](call.params)
      case Returned(result) => Delivered(result)
      case Threw(message, _) => Failed(WStr(message))
  }

  /** What the caller of a remote function learns: the reply the dispatcher makes, once read, settles the
      future with what the handler returned, with the message of what it threw, or with the name of the
      method there is no handler for. */
  lemma CallerLearnsOutcome(c: Defaults, handlers: map<string, Handler>, call: Fields, a: Ambient, uuid: string,
                            now: real)
    requires Constructed(call) && Answered(handlers, call, a).Response?
    ensures var reply := Read(Answered(handlers, call, a).fields, uuid, now);
            IsReply(reply) && reply.id == call.id &&
            Verdict(c, reply) == Some(OutcomeOf(handlers, call, a.shown))
  {
    ResponseAnswersCall(handlers, call, a);
    ResponseSurvivesWire(handlers, call, a, uuid, now);
  }

  /** What an error settles a future with when it says nothing itself: the daemon's words and the session's. */
  lemma ErrorWithoutMessage(m: Fields)
    requires m.kind == ERROR
    ensures !Truthy(m.error) ==>
      Verdict(DAEMON, m) == Some(Failed(WStr("Unknown"))) && Verdict(SESSION, m) == Some(Failed(WStr("Remote error")))
    ensures Truthy(m.error) && m.error.WDict? && "message" !in m.error.entries ==>
      Verdict(DAEMON, m) == Some(Failed(WStr("Unknown error"))) &&
      Verdict(SESSION, m) == Some(Failed(WStr("Remote error")))
    ensures Truthy(m.error) && m.error.WDict? && "message" in m.error.entries ==>
      Verdict(DAEMON, m) == Verdict(SESSION, m) == Some(Failed(m.error.entries["message"]))
    ensures Truthy(m.error) && !m.error.WDict? ==> Verdict(DAEMON, m) == Verdict(SESSION, m) == Nothing
  {}

  // ---- One client, over any run ---------------------------------------------

  datatype ClientEvent = Issue(id: string) | Receive(msg: Fields) | Expire(id: string)

  function ClientStep(c: Defaults, s: Core, e: ClientEvent): Core {
    match e
    case Issue(id) => Issued(s, id)
    case Receive(m) => Received(c, s, m)
    case Expire(id) => Expired(s, id)
  }

  function ClientRun(c: Defaults, s: Core, es: seq<ClientEvent>): Core
    decreases es
  {
    if es == [] then s else ClientRun(c, ClientStep(c, s, es[0]), es[1..])
  }

  predicate NeverIssues(es: seq<ClientEvent>, id: string) {
    Issue(id) !in es
  }

  /** The fate of a call read off the run alone: its first own reply or its timeout, whichever is first. */
  function FateOf(c: Defaults, es: seq<ClientEvent>, id: string): Fate {
    if es == [] then Waiting
    else match es[0]
      case Expire(j) => if j == id then Cancelled else FateOf(c, es[1..], id)
      case Issue(_) => FateOf(c, es[1..], id)
      case Receive(m) =>
        if !IsReplyTo(m, id) then FateOf(c, es[1..], id)
        else match Verdict(c, m)
          case Some(fate) => fate
          case Nothing => if Expire(id) in es[1..] then Cancelled else Waiting
  }

  predicate HasReply(es: seq<ClientEvent>, id: string) {
    exists e :: e in es && e.Receive? && IsReplyTo(e.msg, id)
  }

  /** A settled future never changes again. */
  lemma {:induction false} SettledStays(c: Defaults, s: Core, es: seq<ClientEvent>, id: string)
    requires id in s.futures && s.futures[id] != Waiting && NeverIssues(es, id)
    ensures id in ClientRun(c, s, es).futures && ClientRun(c, s, es).futures[id] == s.futures[id]
    decreases es
  {
    if es != [] {
      assert es[0] in es;
      SettledStays(c, ClientStep(c, s, es[0]), es[1..], id);
    }
  }

  /** Once its table entry is gone, only a timeout can still settle a waiting future. */
  lemma {:induction false} ForgottenOnlyExpires(c: Defaults, s: Core, es: seq<ClientEvent>, id: string)
    requires id in s.futures && s.futures[id] == Waiting && id !in s.pending && NeverIssues(es, id)
    ensures id in ClientRun(c, s, es).futures && id !in ClientRun(c, s, es).pending
    ensures ClientRun(c, s, es).futures[id] == if Expire(id) in es then Cancelled else Waiting
    decreases es
  {
    if es != [] {
      assert es[0] in es;
      var next := ClientStep(c, s, es[0]);
      if es[0] == Expire(id) {
        SettledStays(c, next, es[1..], id);
        GoneStaysGone(c, next, es[1..], id);
      } else {
        ForgottenOnlyExpires(c, next, es[1..], id);
      }
    }
  }

  lemma {:induction false} GoneStaysGone(c: Defaults, s: Core, es: seq<ClientEvent>, id: string)
    requires id !in s.pending && NeverIssues(es, id)
    ensures id !in ClientRun(c, s, es).pending
    decreases es
  {
    if es != [] {
      assert es[0] in es;
      GoneStaysGone(c, ClientStep(c, s, es[0]), es[1..], id);
    }
  }

  /**
   * For any run after a call is issued, with replies in any order, repeated, late, or to other
   * calls, the table and the future end as the run's own first events for that id say.
   */
  lemma {:induction false} FutureFollowsItsOwnEvents(c: Defaults, s: Core, es: seq<ClientEvent>, id: string)
    requires id in s.futures && s.futures[id] == Waiting && id in s.pending && NeverIssues(es, id)
    ensures id in ClientRun(c, s, es).futures
    ensures ClientRun(c, s, es).futures[id] == FateOf(c, es, id)
    decreases es
  {
    if es != [] {
      assert es[0] in es;
      var next := ClientStep(c, s, es[0]);
      if es[0] == Expire(id) {
        SettledStays(c, next, es[1..], id);
      } else if es[0].Receive? && IsReplyTo(es[0].msg, id) {
        if Verdict(c, es[0].msg).Some? {
          SettledStays(c, next, es[1..], id);
        } else {
          ForgottenOnlyExpires(c, next, es[1..], id);
        }
      } else {
        FutureFollowsItsOwnEvents(c, next, es[1..], id);
      }
    }
  }

  /** An entry leaves the table exactly when a reply with its id arrives: a timeout leaves it behind. */
  lemma {:induction false} PendingIffUnanswered(c: Defaults, s: Core, es: seq<ClientEvent>, id: string)
    requires id in s.pending && NeverIssues(es, id)
    ensures id in ClientRun(c, s, es).pending <==> !HasReply(es, id)
    decreases es
  {
    if es != [] {
      assert es[0] in es;
      var next := ClientStep(c, s, es[0]);
      if es[0].Receive? && IsReplyTo(es[0].msg, id) {
        GoneStaysGone(c, next, es[1..], id);
      } else {
        PendingIffUnanswered(c, next, es[1..], id);
        assert HasReply(es, id) <==> HasReply(es[1..], id) by {
          assert es == [es[0]] + es[1..];
        }
      }
    }
  }

  // ---- Client, channel and server together ----------------------------------

  /**
   * `calls` and `replies` only grow: any of them may arrive late, twice, out of order or never.
   * `ran` records what handlers returned for which call, `answered` the ids whose reply has arrived.
   */
  datatype Net = Net(core: Core, calls: map<string, Fields>, ran: set<(string, HandlerResult)>, replies: set<Fields>,
                     answered: set<string>)

  datatype NetEvent =
    | Call(id: string, call: Fields, sent: bool)
    | Handle(id: string, handlers: map<string, Handler>, ambient: Ambient)
    | Deliver(reply: Fields, uuid: string, now: real)
    | Stray(msg: Fields)
    | GiveUp(id: string)

  /** A call under a fresh id; a handler run on a sent call; a reply on its way; a message for no issued id. */
  predicate Enabled(n: Net, e: NetEvent) {
    match e
    case Call(id, call, _) =>
      id != "" && id !in n.core.futures && Constructed(call) && call.kind == CALL && call.id == WStr(id)
    case Handle(id, _, _) => id in n.calls
    case Deliver(reply, _, _) => reply in n.replies
    case Stray(m) => !m.id.WStr? || m.id.s !in n.core.futures
    case GiveUp(_) => true
  }

  function ReadCall(n: Net, id: string, a: Ambient): Fields
    requires id in n.calls
  {
    Read(n.calls[id], a.uuid, a.now)
  }

  function Ran(n: Net, id: string, handlers: map<string, Handler>, a: Ambient): set<(string, HandlerResult)>
    requires id in n.calls
  {
    var m := ReadCall(n, id, a);
    if HasHandler(handlers, m) then {(id, handlers[MethodOf(m).s](m.params))} else {}
  }

  function Replied(n: Net, id: string, handlers: map<string, Handler>, a: Ambient): set<Fields>
    requires id in n.calls
  {
    match Answered(handlers, ReadCall(n, id, a), a)
    case Response(r) => {r}
    case Unhashable => {}
  }

  function Next(c: Defaults, n: Net, e: NetEvent): Net
    requires Enabled(n, e)
  {
    match e
    case Call(id, call, sent) =>
      n.(core := Issued(n.core, id), calls := if sent then n.calls[id := call] else n.calls)
    case Handle(id, handlers, a) =>
      n.(ran := n.ran + Ran(n, id, handlers, a), replies := n.replies + Replied(n, id, handlers, a))
    case Deliver(reply, uuid, now) =>
      var m := Read(reply, uuid, now);
      n.(core := Received(c, n.core, m), answered := n.answered + (if m.id.WStr? then {m.id.s} else {}))
    case Stray(m) => n.(core := Received(c, n.core, m))
    case GiveUp(id) => n.(core := Expired(n.core, id))
  }

  predicate GoodCalls(n: Net) {
    n.calls.Keys <= n.core.futures.Keys &&
    forall id | id in n.calls :: Constructed(n.calls[id]) && n.calls[id].id == WStr(id)
  }

  /** The error says what a handler threw for that very call, or names the method there is no handler for. */
  ghost predicate Explained(n: Net, id: string, w: Wire) {
    (exists h :: (id, h) in n.ran && h.Threw? && w == WStr(h.message)) || NamesNoMethod(n, id, w)
  }

  ghost predicate NamesNoMethod(n: Net, id: string, w: Wire) {
    id in n.calls &&
    if MethodOf(n.calls[id]).WStr? then w == WStr("Unknown method: " + MethodOf(n.calls[id]).s)
    else exists shown: string :: w == WStr("Unknown method: " + shown)
  }

  /** A reply on its way answers a call that was sent: with what a handler returned if it is a result, and
      with what went wrong if it is an error. */
  ghost predicate GoodReply(n: Net, r: Fields) {
    Constructed(r) && r.id.WStr? && r.id.s in n.calls && AnswersCall(r, r.id) && r.methodName == WNull &&
    (r.kind == RESULT ==> (r.id.s, Returned(r.result)) in n.ran) &&
    (r.kind == ERROR ==> r.error.WDict? && "message" in r.error.entries &&
                         Explained(n, r.id.s, r.error.entries["message"]))
  }

  ghost predicate GoodReplies(n: Net) {
    forall r | r in n.replies :: GoodReply(n, r)
  }

  predicate TableIsUnanswered(n: Net) {
    n.core.pending == n.core.futures.Keys - n.answered && n.answered <= n.calls.Keys
  }

  /** A delivered result is one a handler returned for that very call, and an error explains why there is
      none; nothing is settled by another's reply. */
  ghost predicate GoodFate(n: Net, id: string)
    requires id in n.core.futures
  {
    match n.core.futures[id]
    case Delivered(w) => (id, Returned(w)) in n.ran && id in n.answered
    case Failed(w) => id in n.answered && Explained(n, id, w)
    case _ => true
  }

  ghost predicate GoodFates(n: Net) {
    forall id | id in n.core.futures :: GoodFate(n, id)
  }

  ghost predicate Inv(n: Net) {
    GoodCalls(n) && GoodReplies(n) && TableIsUnanswered(n) && GoodFates(n)
  }

  /** A reply is read as it was written, but for the time. */
  lemma ReplyIsRead(n: Net, r: Fields, uuid: string, now: real)
    requires GoodReply(n, r)
    ensures Read(r, uuid, now) == r.(timestamp := now)
  {
    RoundTrips(r, uuid, now);
  }

  /** Calls that were sent and handlers that were run stay so. */
  predicate Extends(n: Net, m: Net) {
    n.ran <= m.ran && forall id | id in n.calls :: id in m.calls && m.calls[id] == n.calls[id]
  }

  lemma ExplanationStays(n: Net, m: Net, id: string, w: Wire)
    requires Explained(n, id, w) && Extends(n, m)
    ensures Explained(m, id, w)
  {
    if h :| (id, h) in n.ran && h.Threw? && w == WStr(h.message) {
      assert (id, h) in m.ran;
    }
  }

  lemma RepliesStay(n: Net, m: Net)
    requires GoodReplies(n) && m.replies <= n.replies && Extends(n, m)
    ensures GoodReplies(m)
  {
    forall r | r in m.replies ensures GoodReply(m, r) {
      assert GoodReply(n, r);
      if r.kind == ERROR {
        ExplanationStays(n, m, r.id.s, r.error.entries["message"]);
      }
    }
  }

  lemma FatesStay(n: Net, m: Net)
    requires GoodFates(n) && Extends(n, m) && n.answered <= m.answered
    requires forall id | id in m.core.futures :: (id in n.core.futures && m.core.futures[id] == n.core.futures[id]) ||
                                                 !(m.core.futures[id].Delivered? || m.core.futures[id].Failed?)
    ensures GoodFates(m)
  {
    forall id | id in m.core.futures ensures GoodFate(m, id) {
      if id in n.core.futures {
        assert GoodFate(n, id);
        if n.core.futures[id].Failed? && m.core.futures[id] == n.core.futures[id] {
          ExplanationStays(n, m, id, n.core.futures[id].reason);
        }
      }
    }
  }

  lemma CallKeepsInv(c: Defaults, n: Net, e: NetEvent)
    requires Inv(n) && e.Call? && Enabled(n, e)
    ensures Inv(Next(c, n, e))
  {
    RepliesStay(n, Next(c, n, e));
    FatesStay(n, Next(c, n, e));
  }

  /** A call is read as it was written, but for an empty method and the time. */
  lemma CallIsRead(n: Net, id: string, a: Ambient)
    requires GoodCalls(n) && id in n.calls
    ensures var m := ReadCall(n, id, a);
            Constructed(m) && m.id == WStr(id) && m.params == n.calls[id].params && MethodOf(m) == MethodOf(n.calls[id])
  {
    RoundTrips(n.calls[id], a.uuid, a.now);
  }

  lemma ErrorIsExplained(n: Net, id: string, handlers: map<string, Handler>, a: Ambient, m: Net, call: Fields,
                         error: Wire)
    requires id in n.calls && m.calls == n.calls && Ran(n, id, handlers, a) <= m.ran && call == ReadCall(n, id, a)
    requires MethodOf(call) == MethodOf(n.calls[id]) && Reports(error, handlers, MethodOf(call), call.params, a.shown)
    ensures Explained(m, id, error.entries["message"])
  {
    if HasHandler(handlers, call) {
      assert (id, handlers[MethodOf(call).s](call.params)) in m.ran;
    }
  }

  /** What the dispatcher sends for a call is a reply to it, with what it has run. */
  lemma RepliedIsGood(n: Net, id: string, handlers: map<string, Handler>, a: Ambient, m: Net, r: Fields)
    requires GoodCalls(n) && id in n.calls && m.calls == n.calls && Ran(n, id, handlers, a) <= m.ran
    requires r in Replied(n, id, handlers, a)
    ensures GoodReply(m, r)
  {
    CallIsRead(n, id, a);
    ResponseAnswersCall(handlers, ReadCall(n, id, a), a);
    if r.kind == ERROR {
      ErrorIsExplained(n, id, handlers, a, m, ReadCall(n, id, a), r.error);
    }
  }

  lemma HandleKeepsInv(c: Defaults, n: Net, e: NetEvent)
    requires Inv(n) && e.Handle? && Enabled(n, e)
    ensures Inv(Next(c, n, e))
  {
    var m := Next(c, n, e);
    RepliesStay(n, m.(replies := n.replies));
    forall r | r in m.replies ensures GoodReply(m, r) {
      if r in n.replies {
        assert GoodReply(m.(replies := n.replies), r);
      } else {
        RepliedIsGood(n, e.id, e.handlers, e.ambient, m, r);
      }
    }
    FatesStay(n, m);
  }

  /** A reply settles its own future only, and takes its entry off the table. */
  lemma ReceivedFates(c: Defaults, n: Net, r: Fields, id: string, m: Net)
    requires GoodFates(n) && GoodReply(n, r) && r.id == WStr(id)
    requires m.core == Received(c, n.core, r) && m.ran == n.ran && m.calls == n.calls && m.answered == n.answered + {id}
    ensures GoodFates(m)
  {
    forall j | j in m.core.futures ensures GoodFate(m, j) {
      assert GoodFate(n, j);
      if m.core.futures[j].Failed? {
        ExplanationStays(n, m, j, m.core.futures[j].reason);
      }
    }
  }

  lemma ReceivedTable(c: Defaults, n: Net, r: Fields, id: string, m: Net)
    requires TableIsUnanswered(n) && IsReplyTo(r, id) && id in n.calls
    requires m.core == Received(c, n.core, r) && m.calls == n.calls && m.answered == n.answered + {id}
    ensures TableIsUnanswered(m)
    ensures m.core.futures.Keys == n.core.futures.Keys
  {}

  lemma ReadIsGood(n: Net, r: Fields, now: real)
    requires GoodReply(n, r)
    ensures GoodReply(n, r.(timestamp := now))
  {}

  lemma DeliverKeepsInv(c: Defaults, n: Net, e: NetEvent)
    requires Inv(n) && e.Deliver? && Enabled(n, e)
    ensures Inv(Next(c, n, e))
  {
    assert GoodReply(n, e.reply);
    var m, r, id := Next(c, n, e), e.reply.(timestamp := e.now), e.reply.id.s;
    ReplyIsRead(n, e.reply, e.uuid, e.now);
    ReadIsGood(n, e.reply, e.now);
    RepliesStay(n, m);
    ReceivedFates(c, n, r, id, m);
    ReceivedTable(c, n, r, id, m);
  }

  lemma SilentKeepsInv(c: Defaults, n: Net, e: NetEvent)
    requires Inv(n) && (e.Stray? || e.GiveUp?) && Enabled(n, e)
    ensures Inv(Next(c, n, e))
  {
    RepliesStay(n, Next(c, n, e));
    FatesStay(n, Next(c, n, e));
  }

  predicate Feasible(c: Defaults, n: Net, es: seq<NetEvent>)
    decreases es
  {
    es == [] || (Enabled(n, es[0]) && Feasible(c, Next(c, n, es[0]), es[1..]))
  }

  function NetRun(c: Defaults, n: Net, es: seq<NetEvent>): Net
    requires Feasible(c, n, es)
    decreases es
  {
    if es == [] then n else NetRun(c, Next(c, n, es[0]), es[1..])
  }

  const START: Net := Net(Core({}, map[]), map[], {}, {}, {})

  lemma {:induction false} RunKeepsInv(c: Defaults, n: Net, es: seq<NetEvent>)
    requires Inv(n) && Feasible(c, n, es)
    ensures Inv(NetRun(c, n, es))
    decreases es
  {
    if es != [] {
      match es[0] {
        case Call(_, _, _) => CallKeepsInv(c, n, es[0]);
        case Handle(_, _, _) => HandleKeepsInv(c, n, es[0]);
        case Deliver(_, _, _) => DeliverKeepsInv(c, n, es[0]);
        case _ => SilentKeepsInv(c, n, es[0]);
      }
      RunKeepsInv(c, Next(c, n, es[0]), es[1..]);
    }
  }

  /**
   * In every reachable state the table is exactly the issued ids with no reply received yet; a delivered
   * result is one that a handler returned for that very call, which was really sent; and a call has failed
   * only with the message of what a handler threw for it, or for want of a handler, with its own method's
   * name.
   */
  lemma CorrelationIsSound(c: Defaults, es: seq<NetEvent>, id: string, w: Wire)
    requires Feasible(c, START, es)
    ensures var n := NetRun(c, START, es);
      n.core.pending == n.core.futures.Keys - n.answered &&
      (id in n.core.futures && n.core.futures[id] == Delivered(w) ==> id in n.calls && (id, Returned(w)) in n.ran) &&
      (id in n.core.futures && n.core.futures[id] == Failed(w) ==> id in n.calls && Explained(n, id, w))
  {
    RunKeepsInv(c, START, es);
    var n := NetRun(c, START, es);
    if id in n.core.futures {
      assert GoodFate(n, id);
    }
  }

  /** Only a result or an error takes an entry off the table or settles anything. */
  lemma OnlyRepliesCount(c: Defaults, s: Core, m: Fields)
    ensures m.kind != RESULT && m.kind != ERROR ==> Received(c, s, m) == s
    ensures (m.kind == RESULT || m.kind == ERROR) && m.id.WStr? ==> Received(c, s, m).pending == s.pending - {m.id.s}
    ensures !m.id.WStr? ==> Received(c, s, m) == s
  {
    if m.id.WStr? && m.id.s !in s.pending { assert s.pending - {m.id.s} == s.pending; }
  }

  /** Receiving settles at most the future of the reply's own id. */
  lemma ReceivedSettlesOwn(c: Defaults, s: Core, m: Fields, id: string)
    requires id in s.futures
    ensures id in Received(c, s, m).futures
    ensures Received(c, s, m).futures[id] != s.futures[id] ==>
      s.futures[id] == Waiting && IsReplyTo(m, id) && id in s.pending &&
      Verdict(c, m) == Some(Received(c, s, m).futures[id])
  {}

  lemma DeliverSettlesOwn(c: Defaults, n: Net, e: NetEvent, id: string)
    requires Inv(n) && e.Deliver? && Enabled(n, e) && id in n.core.futures
    ensures id in Next(c, n, e).core.futures
    ensures Next(c, n, e).core.futures[id] != n.core.futures[id] ==>
      n.core.futures[id] == Waiting && IsReplyTo(e.reply, id) && id in n.core.pending &&
      Verdict(c, e.reply) == Some(Next(c, n, e).core.futures[id])
  {
    assert GoodReply(n, e.reply);
    ReplyIsRead(n, e.reply, e.uuid, e.now);
    ReceivedSettlesOwn(c, n.core, e.reply.(timestamp := e.now), id);
  }

  /** A future is settled once, and with a result or an error only by a reply that carries its id. */
  lemma SettledOnceByItsOwnReply(c: Defaults, n: Net, e: NetEvent, id: string)
    requires Inv(n) && Enabled(n, e) && id in n.core.futures
    ensures id in Next(c, n, e).core.futures
    ensures Next(c, n, e).core.futures[id] != n.core.futures[id] ==>
      n.core.futures[id] == Waiting &&
      ((e == GiveUp(id) && Next(c, n, e).core.futures[id] == Cancelled) ||
       (e.Deliver? && IsReplyTo(e.reply, id) && id in n.core.pending &&
        Verdict(c, e.reply) == Some(Next(c, n, e).core.futures[id])))
  {
    if e.Deliver? {
      DeliverSettlesOwn(c, n, e, id);
    }
  }

  /** A call that was sent, and what it says when it is read at the server. */
  lemma CallReads(call: Fields, id: string, a: Ambient)
    requires Constructed(call) && call.id == WStr(id) && call.kind == CALL
    ensures var m := Read(call, a.uuid, a.now);
            Constructed(m) && m.id == WStr(id) && m.params == call.params && MethodOf(m) == MethodOf(call)
  {
    RoundTrips(call, a.uuid, a.now);
  }

  lemma ReplyTellsOutcome(c: Defaults, handlers: map<string, Handler>, call: Fields, id: string, a: Ambient,
                          uuid: string, now: real)
    requires Constructed(call) && call.id == WStr(id) && call.kind == CALL
    requires Answered(handlers, Read(call, a.uuid, a.now), a).Response?
    ensures var reply := Read(Answered(handlers, Read(call, a.uuid, a.now), a).fields, uuid, now);
            IsReplyTo(reply, id) && Verdict(c, reply) == Some(OutcomeOf(handlers, call, a.shown))
  {
    CallReads(call, id, a);
    CallerLearnsOutcome(c, handlers, Read(call, a.uuid, a.now), a, uuid, now);
  }

  /** Issuing, handling and delivering, one after the other. */
  lemma ThreeSteps(c: Defaults, n: Net, e: NetEvent, f: NetEvent, g: NetEvent)
    requires Enabled(n, e) && Enabled(Next(c, n, e), f) && Enabled(Next(c, Next(c, n, e), f), g)
    ensures Feasible(c, n, [e, f, g])
    ensures NetRun(c, n, [e, f, g]) == Next(c, Next(c, Next(c, n, e), f), g)
  {
    var m, l := Next(c, n, e), Next(c, Next(c, n, e), f);
    assert [e, f, g][1..] == [f, g] && [f, g][1..] == [g] && [g][1..] == [];
    assert Feasible(c, Next(c, l, g), []) && Feasible(c, l, [g]) && Feasible(c, m, [f, g]);
    assert NetRun(c, l, [g]) == NetRun(c, Next(c, l, g), []) == Next(c, l, g);
  }

  lemma SentIsHandled(c: Defaults, n: Net, id: string, call: Fields, handlers: map<string, Handler>, a: Ambient)
    requires id != "" && id !in n.core.futures
    requires Constructed(call) && call.kind == CALL && call.id == WStr(id)
    requires Answered(handlers, Read(call, a.uuid, a.now), a).Response?
    ensures Enabled(n, Call(id, call, true)) && Enabled(Next(c, n, Call(id, call, true)), Handle(id, handlers, a))
    ensures var m := Next(c, Next(c, n, Call(id, call, true)), Handle(id, handlers, a));
            m.core == Issued(n.core, id) && Answered(handlers, Read(call, a.uuid, a.now), a).fields in m.replies
  {}

  /** A call comes back: whatever else is under way, a call under a fresh id that is sent, answered by a
      server and delivered settles its future with the outcome, and leaves the table. */
  lemma CallComesBack(c: Defaults, n: Net, id: string, call: Fields, handlers: map<string, Handler>, a: Ambient,
                      uuid: string, now: real)
    requires id != "" && id !in n.core.futures
    requires Constructed(call) && call.kind == CALL && call.id == WStr(id)
    requires Answered(handlers, Read(call, a.uuid, a.now), a).Response?
    ensures var reply := Answered(handlers, Read(call, a.uuid, a.now), a).fields;
            var es := [Call(id, call, true), Handle(id, handlers, a), Deliver(reply, uuid, now)];
            Feasible(c, n, es) &&
            var core := NetRun(c, n, es).core;
            id in core.futures && core.futures[id] == OutcomeOf(handlers, call, a.shown) && id !in core.pending
  {
    var reply := Answered(handlers, Read(call, a.uuid, a.now), a).fields;
    SentIsHandled(c, n, id, call, handlers, a);
    ReplyTellsOutcome(c, handlers, call, id, a, uuid, now);
    ThreeSteps(c, n, Call(id, call, true), Handle(id, handlers, a), Deliver(reply, uuid, now));
    ReplySettles(c, Issued(n.core, id), Read(reply, uuid, now), id);
  }

  lemma ReplySettles(c: Defaults, s: Core, m: Fields, id: string)
    requires IsReplyTo(m, id) && id in s.pending && id in s.futures && s.futures[id] == Waiting && Verdict(c, m).Some?
    ensures var t := Received(c, s, m);
            id in t.futures && t.futures[id] == Verdict(c, m).value && id !in t.pending
  {}

  /** Giving up is always possible, and final: the reply that comes later changes nothing but the table. */
  lemma LateReplyIsDropped(c: Defaults, n: Net, id: string, m: Fields)
    requires id in n.core.futures && n.core.futures[id] == Waiting
    ensures Enabled(n, GiveUp(id))
    ensures var s := Next(c, n, GiveUp(id)).core;
            s.futures == n.core.futures[id := Cancelled] && s.pending == n.core.pending &&
            (IsReplyTo(m, id) ==>
              Received(c, s, m).futures == s.futures && Received(c, s, m).pending == s.pending - {id})
  {
    var s := Next(c, n, GiveUp(id)).core;
    if id !in s.pending { assert s.pending - {id} == s.pending; }
  }
}
