/** The connection hub of server/ws/hub.py as a step system: connects, disconnects, sends,
    broadcasts and heartbeat sweeps interleave at every await. Only the registration in
    connect and the removal in disconnect hold the lock; sends and the scanning half of a
    sweep do not. A connection object is named by its socket, which is fresh per connect. */
module ConnectionHub {

  type Dev = string
  type Sock = nat
  type Task = nat

  /** What a caller of disconnect does once it returns. */
  datatype Then =
    | Finish
    | SendRest(rest: seq<Dev>)
    | DropRest(rest: seq<Dev>, judged: set<Sock>)

  /** When a sweep started, and the heartbeat interval. */
  datatype Clock = Clock(now: real, interval: real)

  /** Where a task is suspended. */
  datatype Pc =
    | Accepting(dev: Dev, sock: Sock)
    | WantRegister(dev: Dev, sock: Sock)
    | ClosingOld(dev: Dev, sock: Sock, prev: Sock)
    | Sending(dev: Dev, sock: Sock, rest: seq<Dev>)
    | WantDrop(dev: Dev, next: Then)
    | Closing(sock: Sock, next: Then)
    | Scanning(at: Clock, todo: seq<Dev>, dead: seq<Dev>, judged: set<Sock>)
    | Pinging(dev: Dev, sock: Sock, at: Clock, todo: seq<Dev>, dead: seq<Dev>, judged: set<Sock>)

  datatype Lock = Free | Held(holder: Task)

  /** `conns`, `lock` and `beat` are the hub's own state. The rest is bookkeeping: who brought
      each socket, its device once accepted, the sockets ever put in the map, those on which
      close was begun, those judged dead by a sweep that has ended, and those whose connect was
      cancelled between accept and registration. */
  datatype Hub = Hub(
    conns: map<Dev, Sock>, lock: Lock, beat: map<Sock, real>, tasks: map<Task, Pc>,
    broughtBy: map<Sock, Task>, accepted: map<Sock, Dev>, registered: set<Sock>,
    closed: set<Sock>, buried: set<Sock>, abandoned: set<Sock>)

  const INIT := Hub(map[], Free, map[], map[], map[], map[], {}, {}, {}, {})

  datatype Step =
    | Arrive(t: Task, dev: Dev, sock: Sock)
    | AcceptOk(t: Task, now: real)
    | AcceptFail(t: Task)
    | Register(t: Task)
    | CloseOldDone(t: Task)
    | CancelConnect(t: Task)
    | StartDisconnect(t: Task, dev: Dev)
    | Drop(t: Task)
    | CloseDone(t: Task)
    | StartSend(t: Task, devs: seq<Dev>)
    | SendDone(t: Task, ok: bool)
    | StartSweep(t: Task, at: Clock, devs: seq<Dev>)
    | Scan(t: Task)
    | PingDone(t: Task, ok: bool)
    | Beat(sock: Sock, now: real)

  predicate Enabled(h: Hub, s: Step) {
    match s
    case Arrive(t, dev, sock) => t !in h.tasks && sock !in h.broughtBy
    case AcceptOk(t, _) => t in h.tasks && h.tasks[t].Accepting?
    case AcceptFail(t) => t in h.tasks && h.tasks[t].Accepting?
    case Register(t) => t in h.tasks && h.tasks[t].WantRegister? && h.lock.Free?
    case CloseOldDone(t) => t in h.tasks && h.tasks[t].ClosingOld?
    case CancelConnect(t) => t in h.tasks && (h.tasks[t].WantRegister? || h.tasks[t].ClosingOld?)
    case StartDisconnect(t, _) => t !in h.tasks
    case Drop(t) => t in h.tasks && h.tasks[t].WantDrop? && h.lock.Free?
    case CloseDone(t) => t in h.tasks && h.tasks[t].Closing?
    case StartSend(t, _) => t !in h.tasks
    case SendDone(t, _) => t in h.tasks && h.tasks[t].Sending?
    case StartSweep(t, _, devs) => t !in h.tasks
    case Scan(t) => t in h.tasks && h.tasks[t].Scanning?
    case PingDone(t, _) => t in h.tasks && h.tasks[t].Pinging?
    case Beat(sock, _) => true
  }

  function Goto(h: Hub, t: Task, pc: Pc): Hub { h.(tasks := h.tasks[t := pc]) }

  function Exit(h: Hub, t: Task): Hub { h.(tasks := h.tasks - {t}) }

  /** The socket is the device's from now on, and the lock is given back. */
  function Registered(h: Hub, t: Task, dev: Dev, sock: Sock): Hub {
    Exit(h, t).(conns := h.conns[dev := sock], registered := h.registered + {sock}, lock := Free)
  }

  /** A connect is cancelled after accept; the lock, if it had it, is given back. */
  function Abandoned(h: Hub, t: Task, sock: Sock): Hub {
    Exit(h, t).(abandoned := h.abandoned + {sock}, lock := if h.lock == Held(t) then Free else h.lock)
  }

  /** Under the lock, close begins on the device's present connection before it is replaced. */
  function ClosesOld(h: Hub, t: Task, dev: Dev, sock: Sock): Hub
    requires dev in h.conns
  {
    Goto(h, t, ClosingOld(dev, sock, h.conns[dev])).(lock := Held(t), closed := h.closed + {h.conns[dev]})
  }

  /** Under the lock, the device's connection is taken out and close begins on it. */
  function Dropped(h: Hub, t: Task, dev: Dev, next: Then): Hub
    requires dev in h.conns
  {
    Goto(h, t, Closing(h.conns[dev], next))
      .(conns := h.conns - {dev}, lock := Held(t), closed := h.closed + {h.conns[dev]})
  }

  /** What a sweep does next with the device it is at. */
  function ScanPc(h: Hub, at: Clock, todo: seq<Dev>, dead: seq<Dev>, judged: set<Sock>): Pc
    requires todo != []
  {
    if todo[0] !in h.conns then Scanning(at, todo[1..], dead, judged)
    else if Stale(h, h.conns[todo[0]], at) then
      Scanning(at, todo[1..], dead + [todo[0]], judged + {h.conns[todo[0]]})
    else Pinging(todo[0], h.conns[todo[0]], at, todo[1..], dead, judged)
  }

  /** send_to_device for each listed device in turn, up to the next await. */
  function SendNext(h: Hub, t: Task, devs: seq<Dev>): Hub {
    if devs == [] then Exit(h, t)
    else if devs[0] in h.conns then Goto(h, t, Sending(devs[0], h.conns[devs[0]], devs[1..]))
    else SendNext(h, t, devs[1..])
  }

  function Resume(h: Hub, t: Task, next: Then): Hub {
    match next
    case Finish => Exit(h, t)
    case SendRest(rest) => SendNext(h, t, rest)
    case DropRest(rest, judged) =>
      if rest == [] then Exit(h, t).(buried := h.buried + judged)
      else Goto(h, t, WantDrop(rest[0], DropRest(rest[1..], judged)))
  }

  predicate Stale(h: Hub, sock: Sock, at: Clock) {
    sock in h.beat && at.now - h.beat[sock] > at.interval * 3.0
  }

  function Next(h: Hub, s: Step): Hub
    requires Enabled(h, s)
  {
    match s
    case Arrive(t, dev, sock) =>
      Goto(h, t, Accepting(dev, sock)).(broughtBy := h.broughtBy[sock := t])
    case AcceptOk(t, now) =>
      var pc := h.tasks[t];
      Goto(h, t, WantRegister(pc.dev, pc.sock))
        .(accepted := h.accepted[pc.sock := pc.dev], beat := h.beat[pc.sock := now])
    case AcceptFail(t) => Exit(h, t)
    case Register(t) =>
      var pc := h.tasks[t];
      if pc.dev in h.conns then ClosesOld(h, t, pc.dev, pc.sock) else Registered(h, t, pc.dev, pc.sock)
    case CloseOldDone(t) => Registered(h, t, h.tasks[t].dev, h.tasks[t].sock)
    case CancelConnect(t) => Abandoned(h, t, h.tasks[t].sock)
    case StartDisconnect(t, dev) => Goto(h, t, WantDrop(dev, Finish))
    case Drop(t) =>
      var pc := h.tasks[t];
      if pc.dev in h.conns then Dropped(h, t, pc.dev, pc.next)
      else Resume(h, t, pc.next)
    case CloseDone(t) => Resume(h.(lock := Free), t, h.tasks[t].next)
    case StartSend(t, devs) => SendNext(h, t, devs)
    case SendDone(t, ok) =>
      var pc := h.tasks[t];
      if ok then SendNext(h, t, pc.rest) else Goto(h, t, WantDrop(pc.dev, SendRest(pc.rest)))
    case StartSweep(t, at, devs) => Goto(h, t, Scanning(at, devs, [], {}))
    case Scan(t) =>
      var pc := h.tasks[t];
      if pc.todo == [] then Resume(h, t, DropRest(pc.dead, pc.judged))
      else Goto(h, t, ScanPc(h, pc.at, pc.todo, pc.dead, pc.judged))
    case PingDone(t, ok) =>
      var pc := h.tasks[t];
      if ok then Goto(h, t, Scanning(pc.at, pc.todo, pc.dead, pc.judged))
      else Goto(h, t, Scanning(pc.at, pc.todo, pc.dead + [pc.dev], pc.judged + {pc.sock}))
    case Beat(sock, now) => if sock in h.beat then h.(beat := h.beat[sock := now]) else h
  }

  predicate Runs(h: Hub, steps: seq<Step>)
    decreases steps
  {
    steps == [] || (Enabled(h, steps[0]) && Runs(Next(h, steps[0]), steps[1..]))
  }

  function Exec(h: Hub, steps: seq<Step>): Hub
    requires Runs(h, steps)
    decreases steps
  {
    if steps == [] then h else Exec(Next(h, steps[0]), steps[1..])
  }

  // ---------------------------------------------------------------- invariant

  ghost predicate InMap(h: Hub, s: Sock) {
    s in h.accepted && h.accepted[s] in h.conns && h.conns[h.accepted[s]] == s
  }

  ghost predicate AwaitsRegistration(h: Hub, s: Sock) {
    && s in h.accepted && s in h.broughtBy && h.broughtBy[s] in h.tasks
    && var pc := h.tasks[h.broughtBy[s]];
       (pc.WantRegister? || pc.ClosingOld?) && pc.sock == s && pc.dev == h.accepted[s]
  }

  ghost predicate Unsettled(h: Hub, s: Sock) {
    AwaitsRegistration(h, s) || s in h.abandoned
  }

  /** Every judged connection has left the map or its device is still on the list to drop. */
  ghost predicate JudgedOk(h: Hub, drops: seq<Dev>, judged: set<Sock>) {
    && judged <= h.registered
    && forall s :: s in judged && InMap(h, s) ==> h.accepted[s] in drops
  }

  ghost predicate NextOk(h: Hub, first: seq<Dev>, next: Then) {
    next.DropRest? ==> JudgedOk(h, first + next.rest, next.judged)
  }

  ghost predicate Connecting(h: Hub, t: Task, dev: Dev, sock: Sock) {
    && sock in h.broughtBy && h.broughtBy[sock] == t
    && sock in h.accepted && h.accepted[sock] == dev && sock !in h.registered && sock !in h.abandoned
  }

  ghost predicate TaskOk(h: Hub, t: Task, pc: Pc) {
    match pc
    case Accepting(dev, sock) => sock in h.broughtBy && h.broughtBy[sock] == t && sock !in h.accepted
    case WantRegister(dev, sock) => Connecting(h, t, dev, sock)
    case ClosingOld(dev, sock, prev) =>
      && Connecting(h, t, dev, sock)
      && h.lock == Held(t) && dev in h.conns && h.conns[dev] == prev && prev in h.closed
    case Sending(_, _, _) => true
    case WantDrop(dev, next) => NextOk(h, [dev], next)
    case Closing(_, next) => h.lock == Held(t) && NextOk(h, [], next)
    case Scanning(_, _, dead, judged) => JudgedOk(h, dead, judged)
    case Pinging(dev, sock, _, _, dead, judged) =>
      && sock in h.registered && sock in h.accepted && h.accepted[sock] == dev
      && JudgedOk(h, dead, judged)
  }

  ghost predicate SocketsOk(h: Hub) {
    && (forall d :: d in h.conns ==> h.conns[d] in h.registered && InMap(h, h.conns[d]) && h.accepted[h.conns[d]] == d)
    && h.registered <= h.accepted.Keys <= h.broughtBy.Keys && h.accepted.Keys <= h.beat.Keys
    && h.buried <= h.registered && h.closed <= h.registered
    && h.abandoned <= h.accepted.Keys && h.abandoned !! h.registered
    && (forall s :: s in h.registered ==> InMap(h, s) || s in h.closed)
    && (forall s :: s in h.accepted && s !in h.registered ==> Unsettled(h, s))
    && (forall s :: s in h.buried ==> !InMap(h, s))
  }

  ghost predicate LockOk(h: Hub) {
    h.lock.Held? ==> h.lock.holder in h.tasks && (h.tasks[h.lock.holder].ClosingOld? || h.tasks[h.lock.holder].Closing?)
  }

  ghost predicate Inv(h: Hub) {
    && SocketsOk(h) && LockOk(h)
    && forall t :: t in h.tasks ==> TaskOk(h, t, h.tasks[t])
  }

  // ---------------------------------------------------------------- preservation

  /** What any step by `t` leaves alone, as far as the other tasks are concerned. */
  ghost predicate Evolves(h: Hub, h': Hub, t: Task) {
    && (forall s :: s in h.broughtBy ==> s in h'.broughtBy && h'.broughtBy[s] == h.broughtBy[s])
    && (forall s :: s in h.accepted ==> s in h'.accepted && h'.accepted[s] == h.accepted[s])
    && h.closed <= h'.closed && h.registered <= h'.registered
    && (forall s :: s in h.registered && InMap(h', s) ==> InMap(h, s))
    && (forall s :: s in h'.accepted && s !in h.accepted ==> s in h.broughtBy && h.broughtBy[s] == t)
    && (forall s :: s in h'.registered && s !in h.registered ==> s in h.broughtBy && h.broughtBy[s] == t)
    && h.abandoned <= h'.abandoned
    && (forall s :: s in h'.abandoned && s !in h.abandoned ==> s in h.broughtBy && h.broughtBy[s] == t)
    && (h.lock.Held? && h.lock.holder != t ==> h'.lock == h.lock && h'.conns == h.conns)
  }

  lemma JudgedStable(h: Hub, h': Hub, t: Task, drops: seq<Dev>, judged: set<Sock>)
    requires Evolves(h, h', t) && JudgedOk(h, drops, judged)
    ensures JudgedOk(h', drops, judged)
  {}

  lemma TaskStable(h: Hub, h': Hub, t: Task, u: Task, pc: Pc)
    requires Evolves(h, h', t) && TaskOk(h, u, pc) && u != t
    ensures TaskOk(h', u, pc)
  {
    match pc
    case WantDrop(dev, next) =>
      if next.DropRest? { JudgedStable(h, h', t, [dev] + next.rest, next.judged); }
    case Closing(_, next) =>
      if next.DropRest? { JudgedStable(h, h', t, [] + next.rest, next.judged); }
    case Scanning(_, _, dead, judged) => JudgedStable(h, h', t, dead, judged);
    case Pinging(_, _, _, _, dead, judged) => JudgedStable(h, h', t, dead, judged);
    case _ =>
  }

  lemma OthersStable(h: Hub, h': Hub, t: Task)
    requires Inv(h) && Evolves(h, h', t)
    requires forall u :: u in h'.tasks && u != t ==> u in h.tasks && h'.tasks[u] == h.tasks[u]
    requires t in h'.tasks ==> TaskOk(h', t, h'.tasks[t])
    ensures forall u :: u in h'.tasks ==> TaskOk(h', u, h'.tasks[u])
  {
    forall u | u in h'.tasks ensures TaskOk(h', u, h'.tasks[u]) {
      if u != t { TaskStable(h, h', t, u, h.tasks[u]); }
    }
  }

  ghost predicate SameSockets(h: Hub, h': Hub) {
    && h'.conns == h.conns && h'.broughtBy == h.broughtBy && h'.accepted == h.accepted
    && h'.registered == h.registered && h'.closed == h.closed && h'.buried == h.buried
    && h'.abandoned == h.abandoned && h.beat.Keys <= h'.beat.Keys
  }

  predicate IsConnecting(pc: Pc) { pc.WantRegister? || pc.ClosingOld? }

  lemma QuietUnsettled(h: Hub, h': Hub)
    requires SameSockets(h, h') && forall s :: s in h.accepted && s !in h.registered ==> Unsettled(h, s)
    requires forall u :: u in h.tasks && IsConnecting(h.tasks[u]) ==> u in h'.tasks && h'.tasks[u] == h.tasks[u]
    ensures forall s :: s in h'.accepted && s !in h'.registered ==> Unsettled(h', s)
  {
    forall s | s in h.accepted && s !in h.registered ensures Unsettled(h', s) {
      assert Unsettled(h, s);
    }
  }

  lemma QuietSockets(h: Hub, h': Hub)
    requires SocketsOk(h) && SameSockets(h, h')
    requires forall u :: u in h.tasks && IsConnecting(h.tasks[u]) ==> u in h'.tasks && h'.tasks[u] == h.tasks[u]
    ensures SocketsOk(h')
  {
    QuietUnsettled(h, h');
    assert forall s :: InMap(h', s) <==> InMap(h, s);
  }

  lemma QuietEvolves(h: Hub, h': Hub, t: Task)
    requires SameSockets(h, h') && (h.lock.Held? && h.lock.holder != t ==> h'.lock == h.lock)
    ensures Evolves(h, h', t)
  {
    assert forall s :: InMap(h', s) <==> InMap(h, s);
  }

  /** A step of a task that is not connecting, and that leaves the sockets alone. */
  lemma QuietOk(h: Hub, h': Hub, t: Task)
    requires Inv(h) && SameSockets(h, h') && (t in h.tasks ==> !IsConnecting(h.tasks[t]))
    requires h'.tasks - {t} == h.tasks - {t} && (t in h'.tasks ==> TaskOk(h', t, h'.tasks[t]))
    requires LockOk(h') && (h.lock.Held? && h.lock.holder != t ==> h'.lock == h.lock)
    ensures Inv(h')
  {
    assert forall u :: u != t ==> (u in h.tasks <==> u in h.tasks - {t}) && (u in h'.tasks <==> u in h'.tasks - {t});
    assert forall u :: u in h.tasks && u != t ==> u in h'.tasks && h'.tasks[u] == (h'.tasks - {t})[u] == h.tasks[u];
    QuietSockets(h, h');
    QuietEvolves(h, h', t);
    OthersStable(h, h', t);
  }

  lemma ExitOk(h: Hub, t: Task)
    requires Inv(h) && t in h.tasks && !IsConnecting(h.tasks[t])
    ensures h.tasks[t].Closing? ==> Inv(Exit(h, t).(lock := Free))
    ensures !h.tasks[t].Closing? ==> Inv(Exit(h, t))
  {
    if h.tasks[t].Closing? {
      assert TaskOk(h, t, h.tasks[t]);
      QuietOk(h, Exit(h, t).(lock := Free), t);
    } else {
      QuietOk(h, Exit(h, t), t);
    }
  }

  lemma EnterOk(h: Hub, t: Task, pc: Pc)
    requires Inv(h) && t !in h.tasks && TaskOk(Goto(h, t, pc), t, pc)
    requires !pc.Closing? && !pc.ClosingOld?
    ensures Inv(Goto(h, t, pc))
  {
    QuietOk(h, Goto(h, t, pc), t);
  }

  lemma {:induction false} SendNextOk(h: Hub, t: Task, devs: seq<Dev>)
    requires Inv(Exit(h, t))
    ensures Inv(SendNext(h, t, devs))
    decreases devs
  {
    if devs == [] {
    } else if devs[0] in h.conns {
      var pc := Sending(devs[0], h.conns[devs[0]], devs[1..]);
      EnterOk(Exit(h, t), t, pc);
      assert Goto(Exit(h, t), t, pc) == Goto(h, t, pc);
    } else {
      SendNextOk(h, t, devs[1..]);
    }
  }

  lemma BuryOk(e: Hub, judged: set<Sock>)
    requires Inv(e) && JudgedOk(e, [], judged)
    ensures Inv(e.(buried := e.buried + judged))
  {
    var h' := e.(buried := e.buried + judged);
    assert forall s :: InMap(h', s) <==> InMap(e, s);
    forall s | s in h'.accepted && s !in h'.registered ensures Unsettled(h', s) {
      assert Unsettled(e, s);
    }
    forall u | u in h'.tasks ensures TaskOk(h', u, h'.tasks[u]) {
      TaskStable(e, h', u + 1, u, e.tasks[u]);
    }
  }

  lemma DropNextOk(h: Hub, t: Task, rest: seq<Dev>, judged: set<Sock>)
    requires Inv(Exit(h, t)) && rest != [] && JudgedOk(Exit(h, t), rest, judged)
    ensures Inv(Goto(h, t, WantDrop(rest[0], DropRest(rest[1..], judged))))
  {
    var e, pc := Exit(h, t), WantDrop(rest[0], DropRest(rest[1..], judged));
    assert [rest[0]] + rest[1..] == rest;
    JudgedStays(e, Goto(e, t, pc), rest, judged);
    EnterOk(e, t, pc);
    assert Goto(e, t, pc) == Goto(h, t, pc);
  }

  lemma JudgedStays(h: Hub, h': Hub, drops: seq<Dev>, judged: set<Sock>)
    requires JudgedOk(h, drops, judged) && h'.registered == h.registered
    requires h'.conns == h.conns && h'.accepted == h.accepted
    ensures JudgedOk(h', drops, judged)
  {
    assert forall s :: InMap(h', s) <==> InMap(h, s);
  }

  lemma ResumeOk(h: Hub, t: Task, next: Then)
    requires Inv(Exit(h, t)) && NextOk(h, [], next)
    ensures Inv(Resume(h, t, next))
  {
    match next
    case Finish =>
    case SendRest(rest) => SendNextOk(h, t, rest);
    case DropRest(rest, judged) =>
      assert [] + rest == rest;
      JudgedStays(h, Exit(h, t), rest, judged);
      if rest == [] {
        BuryOk(Exit(h, t), judged);
      } else {
        DropNextOk(h, t, rest, judged);
      }
  }

  lemma ArrivedSockets(h: Hub, t: Task, dev: Dev, sock: Sock)
    requires SocketsOk(h) && t !in h.tasks && sock !in h.broughtBy
    ensures SocketsOk(Next(h, Arrive(t, dev, sock)))
  {
    var h' := Next(h, Arrive(t, dev, sock));
    assert forall s :: InMap(h', s) <==> InMap(h, s);
    forall s | s in h.accepted && s !in h.registered ensures Unsettled(h', s) {
      assert Unsettled(h, s);
    }
  }

  lemma ArrivedEvolves(h: Hub, t: Task, dev: Dev, sock: Sock)
    requires t !in h.tasks && sock !in h.broughtBy
    ensures Evolves(h, Next(h, Arrive(t, dev, sock)), t)
  {}

  lemma ArriveOk(h: Hub, t: Task, dev: Dev, sock: Sock)
    requires Inv(h) && Enabled(h, Arrive(t, dev, sock))
    ensures Inv(Next(h, Arrive(t, dev, sock)))
  {
    ArrivedSockets(h, t, dev, sock);
    ArrivedEvolves(h, t, dev, sock);
    OthersStable(h, Next(h, Arrive(t, dev, sock)), t);
  }

  lemma AcceptedSockets(h: Hub, t: Task, now: real)
    requires Inv(h) && Enabled(h, AcceptOk(t, now))
    ensures SocketsOk(Next(h, AcceptOk(t, now)))
  {
    var h', pc := Next(h, AcceptOk(t, now)), h.tasks[t];
    assert TaskOk(h, t, pc);
    assert forall s :: InMap(h', s) <==> InMap(h, s);
    forall s | s in h'.accepted && s !in h'.registered ensures Unsettled(h', s) {
      if s != pc.sock { assert Unsettled(h, s); }
    }
  }

  lemma AcceptedEvolves(h: Hub, t: Task, now: real)
    requires Inv(h) && Enabled(h, AcceptOk(t, now))
    ensures Evolves(h, Next(h, AcceptOk(t, now)), t)
  {
    assert TaskOk(h, t, h.tasks[t]);
    assert forall s :: InMap(Next(h, AcceptOk(t, now)), s) <==> InMap(h, s);
  }

  lemma AcceptOkOk(h: Hub, t: Task, now: real)
    requires Inv(h) && Enabled(h, AcceptOk(t, now))
    ensures Inv(Next(h, AcceptOk(t, now)))
  {
    AcceptedSockets(h, t, now);
    AcceptedEvolves(h, t, now);
    assert TaskOk(h, t, h.tasks[t]);
    OthersStable(h, Next(h, AcceptOk(t, now)), t);
  }

  /** A connect under way keeps its socket to itself. */
  lemma OthersUnsettled(h: Hub, h': Hub, t: Task, sock: Sock)
    requires forall s :: s in h.accepted && s !in h.registered ==> Unsettled(h, s)
    requires sock in h.broughtBy && h.broughtBy[sock] == t
    requires t in h.tasks && (h.tasks[t].WantRegister? || h.tasks[t].ClosingOld?) && h.tasks[t].sock == sock
    requires h'.accepted == h.accepted && h'.broughtBy == h.broughtBy && h.abandoned <= h'.abandoned
    requires forall u :: u in h.tasks && u != t ==> u in h'.tasks && h'.tasks[u] == h.tasks[u]
    ensures forall s :: s in h.accepted && s !in h.registered && s != sock ==> Unsettled(h', s)
  {
    forall s | s in h.accepted && s !in h.registered && s != sock ensures Unsettled(h', s) {
      assert Unsettled(h, s);
    }
  }

  lemma RegisteredEvolves(h: Hub, t: Task, dev: Dev, sock: Sock)
    requires Inv(h) && Connecting(h, t, dev, sock) && (h.lock.Free? || h.lock == Held(t))
    ensures Evolves(h, Registered(h, t, dev, sock), t)
  {}

  lemma RegisteredSockets(h: Hub, t: Task, dev: Dev, sock: Sock)
    requires SocketsOk(h) && Connecting(h, t, dev, sock)
    requires t in h.tasks && (h.tasks[t].WantRegister? || h.tasks[t].ClosingOld?) && h.tasks[t].sock == sock
    requires dev in h.conns ==> h.conns[dev] in h.closed
    ensures SocketsOk(Registered(h, t, dev, sock))
  {
    var h' := Registered(h, t, dev, sock);
    assert forall s :: InMap(h', s) <==> (InMap(h, s) && !(dev in h.conns && s == h.conns[dev])) || s == sock;
    OthersUnsettled(h, h', t, sock);
  }

  lemma RegisteredOk(h: Hub, t: Task, dev: Dev, sock: Sock)
    requires Inv(h) && Connecting(h, t, dev, sock) && (h.lock.Free? || h.lock == Held(t))
    requires t in h.tasks && (h.tasks[t].WantRegister? || h.tasks[t].ClosingOld?) && h.tasks[t].sock == sock
    requires dev in h.conns ==> h.conns[dev] in h.closed
    ensures Inv(Registered(h, t, dev, sock))
  {
    RegisteredEvolves(h, t, dev, sock);
    RegisteredSockets(h, t, dev, sock);
    OthersStable(h, Registered(h, t, dev, sock), t);
  }

  lemma ClosesOldOk(h: Hub, t: Task, dev: Dev, sock: Sock)
    requires Inv(h) && Connecting(h, t, dev, sock) && h.lock.Free? && dev in h.conns
    requires t in h.tasks && h.tasks[t] == WantRegister(dev, sock)
    ensures Inv(ClosesOld(h, t, dev, sock))
  {
    var h' := ClosesOld(h, t, dev, sock);
    assert forall s :: InMap(h', s) <==> InMap(h, s);
    OthersUnsettled(h, h', t, sock);
    OthersStable(h, h', t);
  }

  lemma RegisterOk(h: Hub, t: Task)
    requires Inv(h) && Enabled(h, Register(t))
    ensures Inv(Next(h, Register(t)))
  {
    var pc := h.tasks[t];
    assert TaskOk(h, t, pc);
    if pc.dev in h.conns {
      ClosesOldOk(h, t, pc.dev, pc.sock);
    } else {
      RegisteredOk(h, t, pc.dev, pc.sock);
    }
  }

  lemma CloseOldDoneOk(h: Hub, t: Task)
    requires Inv(h) && Enabled(h, CloseOldDone(t))
    ensures Inv(Next(h, CloseOldDone(t)))
  {
    assert TaskOk(h, t, h.tasks[t]);
    RegisteredOk(h, t, h.tasks[t].dev, h.tasks[t].sock);
  }

  lemma AbandonedSockets(h: Hub, t: Task, sock: Sock)
    requires SocketsOk(h) && sock in h.accepted && sock !in h.registered
    requires sock in h.broughtBy && h.broughtBy[sock] == t
    requires t in h.tasks && (h.tasks[t].WantRegister? || h.tasks[t].ClosingOld?) && h.tasks[t].sock == sock
    ensures SocketsOk(Abandoned(h, t, sock))
  {
    var h' := Abandoned(h, t, sock);
    assert forall s :: InMap(h', s) <==> InMap(h, s);
    OthersUnsettled(h, h', t, sock);
  }

  lemma AbandonedOk(h: Hub, t: Task, dev: Dev, sock: Sock)
    requires Inv(h) && Connecting(h, t, dev, sock)
    requires t in h.tasks && (h.tasks[t].WantRegister? || h.tasks[t].ClosingOld?) && h.tasks[t].sock == sock
    ensures Inv(Abandoned(h, t, sock))
  {
    AbandonedSockets(h, t, sock);
    OthersStable(h, Abandoned(h, t, sock), t);
  }

  lemma CancelConnectOk(h: Hub, t: Task)
    requires Inv(h) && Enabled(h, CancelConnect(t))
    ensures Inv(Next(h, CancelConnect(t)))
  {
    assert TaskOk(h, t, h.tasks[t]);
    AbandonedOk(h, t, h.tasks[t].dev, h.tasks[t].sock);
  }

  lemma DroppedSockets(h: Hub, t: Task, dev: Dev, next: Then)
    requires SocketsOk(h) && t in h.tasks && h.tasks[t] == WantDrop(dev, next) && dev in h.conns
    ensures SocketsOk(Dropped(h, t, dev, next))
    ensures forall s :: InMap(Dropped(h, t, dev, next), s) <==> InMap(h, s) && s != h.conns[dev]
  {
    var h' := Dropped(h, t, dev, next);
    assert forall s :: InMap(h', s) <==> InMap(h, s) && s != h.conns[dev];
    forall s | s in h'.accepted && s !in h'.registered ensures Unsettled(h', s) {
      assert Unsettled(h, s);
    }
  }

  /** The device just seen to needs no place on the list. */
  lemma NextOkOnward(h: Hub, h': Hub, dev: Dev, next: Then)
    requires NextOk(h, [dev], next) && h.registered <= h'.registered
    requires forall s :: s in h.registered && InMap(h', s) ==> InMap(h, s) && h'.accepted[s] == h.accepted[s] != dev
    ensures NextOk(h', [], next)
  {
    if next.DropRest? {
      assert [] + next.rest == next.rest;
      assert forall d :: d in [dev] + next.rest ==> d == dev || d in next.rest;
    }
  }

  lemma DroppedOk(h: Hub, t: Task, dev: Dev, next: Then)
    requires Inv(h) && t in h.tasks && h.tasks[t] == WantDrop(dev, next) && dev in h.conns && h.lock.Free?
    ensures Inv(Dropped(h, t, dev, next))
  {
    var h' := Dropped(h, t, dev, next);
    assert TaskOk(h, t, h.tasks[t]);
    DroppedSockets(h, t, dev, next);
    NextOkOnward(h, h', dev, next);
    OthersStable(h, h', t);
  }

  lemma DropOk(h: Hub, t: Task)
    requires Inv(h) && Enabled(h, Drop(t))
    ensures Inv(Next(h, Drop(t)))
  {
    var pc := h.tasks[t];
    if pc.dev in h.conns {
      DroppedOk(h, t, pc.dev, pc.next);
    } else {
      assert TaskOk(h, t, pc);
      ExitOk(h, t);
      NextOkOnward(h, h, pc.dev, pc.next);
      ResumeOk(h, t, pc.next);
    }
  }

  lemma ScanTo(h: Hub, t: Task, pc: Pc)
    requires Inv(Exit(h, t)) && TaskOk(h, t, pc) && (pc.Scanning? || pc.Pinging?)
    ensures Inv(Goto(h, t, pc))
  {
    assert Goto(Exit(h, t), t, pc) == Goto(h, t, pc);
    assert forall s :: InMap(Goto(h, t, pc), s) <==> InMap(h, s);
    EnterOk(Exit(h, t), t, pc);
  }

  lemma ScanPcOk(h: Hub, t: Task, at: Clock, todo: seq<Dev>, dead: seq<Dev>, judged: set<Sock>)
    requires SocketsOk(h) && JudgedOk(h, dead, judged) && todo != []
    ensures TaskOk(h, t, ScanPc(h, at, todo, dead, judged))
  {}

  lemma ScanOk(h: Hub, t: Task)
    requires Inv(h) && Enabled(h, Scan(t))
    ensures Inv(Next(h, Scan(t)))
  {
    var pc := h.tasks[t];
    assert TaskOk(h, t, pc);
    ExitOk(h, t);
    if pc.todo == [] {
      assert [] + pc.dead == pc.dead;
      ResumeOk(h, t, DropRest(pc.dead, pc.judged));
    } else {
      ScanPcOk(h, t, pc.at, pc.todo, pc.dead, pc.judged);
      ScanTo(h, t, ScanPc(h, pc.at, pc.todo, pc.dead, pc.judged));
    }
  }

  lemma PingDoneOk(h: Hub, t: Task, ok: bool)
    requires Inv(h) && Enabled(h, PingDone(t, ok))
    ensures Inv(Next(h, PingDone(t, ok)))
  {
    assert TaskOk(h, t, h.tasks[t]);
    ExitOk(h, t);
    ScanTo(h, t, Next(h, PingDone(t, ok)).tasks[t]);
  }

  lemma BeatOk(h: Hub, sock: Sock, now: real)
    requires Inv(h)
    ensures Inv(Next(h, Beat(sock, now)))
  {
    var h' := Next(h, Beat(sock, now));
    QuietSockets(h, h');
    forall u | u in h'.tasks ensures TaskOk(h', u, h'.tasks[u]) {
      QuietEvolves(h, h', u + 1);
      TaskStable(h, h', u + 1, u, h.tasks[u]);
    }
  }

  lemma CloseDoneOk(h: Hub, t: Task)
    requires Inv(h) && Enabled(h, CloseDone(t))
    ensures Inv(Next(h, CloseDone(t)))
  {
    assert TaskOk(h, t, h.tasks[t]);
    ExitOk(h, t);
    var f := h.(lock := Free);
    assert Exit(f, t) == Exit(h, t).(lock := Free);
    assert forall s :: InMap(f, s) <==> InMap(h, s);
    ResumeOk(f, t, h.tasks[t].next);
  }

  lemma SendFailedOk(h: Hub, t: Task, dev: Dev, rest: seq<Dev>)
    requires Inv(Exit(h, t))
    ensures Inv(Goto(h, t, WantDrop(dev, SendRest(rest))))
  {
    var pc := WantDrop(dev, SendRest(rest));
    EnterOk(Exit(h, t), t, pc);
    assert Goto(Exit(h, t), t, pc) == Goto(h, t, pc);
  }

  lemma SendDoneOk(h: Hub, t: Task, ok: bool)
    requires Inv(h) && Enabled(h, SendDone(t, ok))
    ensures Inv(Next(h, SendDone(t, ok)))
  {
    ExitOk(h, t);
    if ok {
      SendNextOk(h, t, h.tasks[t].rest);
    } else {
      SendFailedOk(h, t, h.tasks[t].dev, h.tasks[t].rest);
    }
  }

  lemma NextKeepsInv(h: Hub, s: Step)
    requires Inv(h) && Enabled(h, s)
    ensures Inv(Next(h, s))
  {
    match s
    case Arrive(t, dev, sock) => ArriveOk(h, t, dev, sock);
    case AcceptOk(t, now) => AcceptOkOk(h, t, now);
    case AcceptFail(t) => ExitOk(h, t);
    case Register(t) => RegisterOk(h, t);
    case CloseOldDone(t) => CloseOldDoneOk(h, t);
    case CancelConnect(t) => CancelConnectOk(h, t);
    case StartDisconnect(t, dev) => EnterOk(h, t, WantDrop(dev, Finish));
    case Drop(t) => DropOk(h, t);
    case CloseDone(t) => CloseDoneOk(h, t);
    case StartSend(t, devs) =>
      assert h.tasks - {t} == h.tasks;
      SendNextOk(h, t, devs);
    case SendDone(t, ok) => SendDoneOk(h, t, ok);
    case StartSweep(t, at, devs) => EnterOk(h, t, Scanning(at, devs, [], {}));
    case Scan(t) => ScanOk(h, t);
    case PingDone(t, ok) => PingDoneOk(h, t, ok);
    case Beat(sock, now) => BeatOk(h, sock, now);
  }

  lemma {:induction false} ExecKeepsInv(h: Hub, steps: seq<Step>)
    requires Inv(h) && Runs(h, steps)
    ensures Inv(Exec(h, steps))
    decreases steps
  {
    if steps != [] {
      NextKeepsInv(h, steps[0]);
      ExecKeepsInv(Next(h, steps[0]), steps[1..]);
    }
  }

  // ---------------------------------------------------------------- theorems

  /** Under every interleaving, an accepted socket is awaiting registration, in the map under
      its own device, or has had close begun on it, exactly unless its connect was cancelled. */
  lemma NoSocketLost(steps: seq<Step>, s: Sock)
    requires Runs(INIT, steps)
    requires s in Exec(INIT, steps).accepted
    ensures var h := Exec(INIT, steps);
            AwaitsRegistration(h, s) || InMap(h, s) || s in h.closed <==> s !in h.abandoned
  {
    ExecKeepsInv(INIT, steps);
    var h := Exec(INIT, steps);
    if AwaitsRegistration(h, s) {
      assert TaskOk(h, h.broughtBy[s], h.tasks[h.broughtBy[s]]);
    }
  }

  ghost function JudgedBy(h: Hub, t: Task): set<Sock> {
    if t !in h.tasks then {}
    else match h.tasks[t]
      case WantDrop(_, DropRest(_, judged)) => judged
      case Closing(_, DropRest(_, judged)) => judged
      case Scanning(_, _, _, judged) => judged
      case Pinging(_, _, _, _, _, judged) => judged
      case _ => {}
  }

  ghost predicate SameOtherTasks(h: Hub, h': Hub, u: Task) {
    forall t :: t != u && t in h.tasks ==> t in h'.tasks && h'.tasks[t] == h.tasks[t]
  }

  lemma {:induction false} SendNextTouches(h: Hub, u: Task, devs: seq<Dev>)
    ensures SendNext(h, u, devs).buried == h.buried
    ensures SameOtherTasks(h, SendNext(h, u, devs), u)
    decreases devs
  {
    if devs != [] && devs[0] !in h.conns { SendNextTouches(h, u, devs[1..]); }
  }

  lemma ResumeKeepsJudged(h: Hub, u: Task, next: Then)
    ensures h.buried <= Resume(h, u, next).buried
    ensures SameOtherTasks(h, Resume(h, u, next), u)
    ensures next.DropRest? ==> next.judged <= JudgedBy(Resume(h, u, next), u) + Resume(h, u, next).buried
  {
    if next.SendRest? { SendNextTouches(h, u, next.rest); }
  }

  /** A step moves one task at most, and never unburies. */
  ghost predicate MovesOnly(h: Hub, h': Hub, u: Task) {
    && SameOtherTasks(h, h', u) && h.buried <= h'.buried
    && JudgedBy(h, u) <= JudgedBy(h', u) + h'.buried
  }

  lemma ResumingStep(h: Hub, s: Step) returns (u: Task)
    requires Enabled(h, s) && (s.Drop? || s.CloseDone? || s.StartSend? || s.SendDone?)
    ensures u == s.t && MovesOnly(h, Next(h, s), u)
  {
    u := s.t;
    match s
    case Drop(_) => ResumeKeepsJudged(h, u, h.tasks[u].next);
    case CloseDone(_) => ResumeKeepsJudged(h.(lock := Free), u, h.tasks[u].next);
    case StartSend(_, devs) => SendNextTouches(h, u, devs);
    case SendDone(_, ok) => SendNextTouches(h, u, h.tasks[u].rest);
  }

  lemma ScanningStep(h: Hub, t: Task)
    requires Enabled(h, Scan(t))
    ensures MovesOnly(h, Next(h, Scan(t)), t)
  {
    var pc := h.tasks[t];
    if pc.todo == [] {
      ResumeKeepsJudged(h, t, DropRest(pc.dead, pc.judged));
    } else {
      GotoMovesOnly(h, t, ScanPc(h, pc.at, pc.todo, pc.dead, pc.judged));
    }
  }

  lemma GotoMovesOnly(h: Hub, t: Task, pc: Pc)
    requires t in h.tasks && h.tasks[t].Scanning?
    requires (pc.Scanning? || pc.Pinging?) && h.tasks[t].judged <= pc.judged
    ensures MovesOnly(h, Goto(h, t, pc), t)
  {}

  lemma AcceptStep(h: Hub, s: Step)
    requires Enabled(h, s) && (s.Arrive? || s.AcceptOk? || s.AcceptFail?)
    ensures MovesOnly(h, Next(h, s), s.t)
  {}

  lemma RegisterStep(h: Hub, s: Step)
    requires Enabled(h, s) && (s.Register? || s.CloseOldDone? || s.CancelConnect?)
    ensures MovesOnly(h, Next(h, s), s.t)
  {}

  lemma StartStep(h: Hub, s: Step)
    requires Enabled(h, s) && (s.StartDisconnect? || s.StartSweep?)
    ensures MovesOnly(h, Next(h, s), s.t)
  {}

  lemma PingStep(h: Hub, s: Step)
    requires Enabled(h, s) && s.PingDone?
    ensures MovesOnly(h, Next(h, s), s.t)
  {}

  lemma OtherStep(h: Hub, s: Step) returns (u: Task)
    requires Enabled(h, s) && !s.Drop? && !s.CloseDone? && !s.StartSend? && !s.SendDone? && !s.Scan?
    ensures MovesOnly(h, Next(h, s), u) && (s.Beat? || u == s.t)
  {
    if s.Beat? {
      u := 0;
    } else {
      u := s.t;
      if s.Arrive? || s.AcceptOk? || s.AcceptFail? {
        AcceptStep(h, s);
      } else if s.Register? || s.CloseOldDone? || s.CancelConnect? {
        RegisterStep(h, s);
      } else if s.PingDone? {
        PingStep(h, s);
      } else {
        StartStep(h, s);
      }
    }
  }

  /** Nothing a sweep has judged is forgotten before the sweep ends, and then it is buried. */
  lemma NextKeepsJudged(h: Hub, s: Step, t: Task)
    requires Enabled(h, s)
    ensures h.buried <= Next(h, s).buried
    ensures JudgedBy(h, t) <= JudgedBy(Next(h, s), t) + Next(h, s).buried
  {
    var u: Task;
    if s.Scan? { u := s.t; ScanningStep(h, u); }
    else if s.Drop? || s.CloseDone? || s.StartSend? || s.SendDone? { u := ResumingStep(h, s); }
    else { u := OtherStep(h, s); }
    if t != u && t in h.tasks { assert Next(h, s).tasks[t] == h.tasks[t]; }
  }

  lemma {:induction false} ExecKeepsJudged(h: Hub, steps: seq<Step>, t: Task)
    requires Runs(h, steps)
    ensures JudgedBy(h, t) + h.buried <= JudgedBy(Exec(h, steps), t) + Exec(h, steps).buried
    decreases steps
  {
    if steps != [] {
      NextKeepsJudged(h, steps[0], t);
      ExecKeepsJudged(Next(h, steps[0]), steps[1..], t);
    }
  }

  /** In `h`, the step judges the connection `s`: its last heartbeat is too old, or the
      heartbeat sent to it failed. */
  predicate Judges(h: Hub, step: Step, t: Task, s: Sock) {
    Enabled(h, step) &&
    match step
    case Scan(u) => u == t && var pc := h.tasks[t];
      pc.todo != [] && pc.todo[0] in h.conns && h.conns[pc.todo[0]] == s &&
      s in h.beat && pc.at.now - h.beat[s] > 3.0 * pc.at.interval
    case PingDone(u, ok) => u == t && !ok && h.tasks[t].sock == s
    case _ => false
  }

  lemma JudgesAtOnce(h: Hub, step: Step, t: Task, s: Sock)
    requires Judges(h, step, t, s)
    ensures s in JudgedBy(Next(h, step), t) + Next(h, step).buried
  {
    match step
    case Scan(_) =>
    case PingDone(_, _) =>
  }

  lemma BuriedIsClosed(h: Hub, s: Sock)
    requires Inv(h) && s in h.buried
    ensures s !in h.conns.Values && s in h.closed
  {}

  /** Whatever happens around a sweep, every connection it judges stale or unsendable is out
      of the map, with close begun on it, when that sweep ends, and stays out. */
  lemma SweepRemovesWhatItJudges(before: seq<Step>, step: Step, t: Task, s: Sock, after: seq<Step>)
    requires Runs(INIT, before) && Judges(Exec(INIT, before), step, t, s)
    requires Runs(Next(Exec(INIT, before), step), after)
    requires t !in Exec(Next(Exec(INIT, before), step), after).tasks
    ensures var h := Exec(Next(Exec(INIT, before), step), after);
            s !in h.conns.Values && s in h.closed && s in h.buried
  {
    ExecKeepsInv(INIT, before);
    var h0 := Exec(INIT, before);
    NextKeepsInv(h0, step);
    JudgesAtOnce(h0, step, t, s);
    var h1 := Next(h0, step);
    ExecKeepsInv(h1, after);
    ExecKeepsJudged(h1, after, t);
    BuriedIsClosed(Exec(h1, after), s);
  }

  lemma BuriedStaysOut(h: Hub, steps: seq<Step>, s: Sock)
    requires Inv(h) && Runs(h, steps) && s in h.buried
    ensures s !in Exec(h, steps).conns.Values
  {
    ExecKeepsInv(h, steps);
    ExecKeepsJudged(h, steps, 0);
    BuriedGrows(h, steps);
  }

  lemma {:induction false} BuriedGrows(h: Hub, steps: seq<Step>)
    requires Runs(h, steps)
    ensures h.buried <= Exec(h, steps).buried
    decreases steps
  {
    if steps != [] {
      NextKeepsJudged(h, steps[0], 0);
      BuriedGrows(Next(h, steps[0]), steps[1..]);
    }
  }

  lemma HolderCloses(h: Hub)
    requires Inv(h) && h.lock.Held?
    ensures Enabled(h, CloseOldDone(h.lock.holder)) || Enabled(h, CloseDone(h.lock.holder))
  {}

  lemma CloserHolds(h: Hub, t: Task)
    requires Inv(h) && t in h.tasks && (h.tasks[t].ClosingOld? || h.tasks[t].Closing?)
    ensures h.lock == Held(t)
  {
    assert TaskOk(h, t, h.tasks[t]);
  }

  /** The lock is held by at most one task, which is closing a socket and can always go on. */
  lemma LockHolderCanMove(steps: seq<Step>)
    requires Runs(INIT, steps) && Exec(INIT, steps).lock.Held?
    ensures var h := Exec(INIT, steps);
            && (Enabled(h, CloseOldDone(h.lock.holder)) || Enabled(h, CloseDone(h.lock.holder)))
            && forall t :: t in h.tasks && (h.tasks[t].ClosingOld? || h.tasks[t].Closing?) ==> t == h.lock.holder
  {
    ExecKeepsInv(INIT, steps);
    var h := Exec(INIT, steps);
    HolderCloses(h);
    forall t | t in h.tasks && (h.tasks[t].ClosingOld? || h.tasks[t].Closing?) ensures t == h.lock.holder {
      CloserHolds(h, t);
    }
  }

  /** A task that does not wait for the lock can go on whichever way its await ends, and one that waits can
      when the lock is free; a connect past its accept can be cancelled wherever it is. */
  lemma TaskCanMove(h: Hub, t: Task, ok: bool, now: real)
    requires t in h.tasks
    ensures match h.tasks[t]
      case Accepting(_, _) => Enabled(h, AcceptOk(t, now)) && Enabled(h, AcceptFail(t))
      case WantRegister(_, _) => Enabled(h, CancelConnect(t)) && (Enabled(h, Register(t)) <==> h.lock == Free)
      case ClosingOld(_, _, _) => Enabled(h, CancelConnect(t)) && Enabled(h, CloseOldDone(t))
      case Sending(_, _, _) => Enabled(h, SendDone(t, ok))
      case WantDrop(_, _) => Enabled(h, Drop(t)) <==> h.lock == Free
      case Closing(_, _) => Enabled(h, CloseDone(t))
      case Scanning(_, _, _, _) => Enabled(h, Scan(t))
      case Pinging(_, _, _, _, _, _) => Enabled(h, PingDone(t, ok))
  {}

  /** No deadlock: in every reachable state with tasks under way, one of them can go on. */
  lemma NoDeadlock(steps: seq<Step>) returns (s: Step)
    requires Runs(INIT, steps) && Exec(INIT, steps).tasks != map[]
    ensures Enabled(Exec(INIT, steps), s) && !s.Beat? && s.t in Exec(INIT, steps).tasks
  {
    ExecKeepsInv(INIT, steps);
    var h := Exec(INIT, steps);
    if h.lock.Held? {
      HolderCloses(h);
      s := if Enabled(h, CloseOldDone(h.lock.holder)) then CloseOldDone(h.lock.holder) else CloseDone(h.lock.holder);
    } else {
      var t :| t in h.tasks;
      TaskCanMove(h, t, true, 0.0);
      s := match h.tasks[t]
        case Accepting(_, _) => AcceptOk(t, 0.0)
        case WantRegister(_, _) => Register(t)
        case ClosingOld(_, _, _) => CloseOldDone(t)
        case Sending(_, _, _) => SendDone(t, true)
        case WantDrop(_, _) => Drop(t)
        case Closing(_, _) => CloseDone(t)
        case Scanning(_, _, _, _) => Scan(t)
        case Pinging(_, _, _, _, _, _) => PingDone(t, true);
    }
  }

  /** A connect that is cancelled past its accept leaves its socket open, out of the map, and with nobody to
      close it; the lock is not left behind. */
  lemma CancelLosesSocket(h: Hub, t: Task)
    requires Inv(h) && t in h.tasks && (h.tasks[t].WantRegister? || h.tasks[t].ClosingOld?)
    ensures Enabled(h, CancelConnect(t))
    ensures var h', s := Next(h, CancelConnect(t)), h.tasks[t].sock;
            && s in h'.accepted && s in h'.abandoned && t !in h'.tasks
            && !AwaitsRegistration(h', s) && !InMap(h', s) && s !in h'.closed && h'.lock != Held(t)
  {
    assert TaskOk(h, t, h.tasks[t]);
    CancelConnectOk(h, t);
  }
}
