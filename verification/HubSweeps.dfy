/** Whom a heartbeat sweep judges. What the hub records of a connection is when it was last heard
    from; a sweep goes by that time and by the heartbeats it sends, and by nothing else. */
module HubSweeps {
  import opened ConnectionHub
  import opened HubRemovals

  // ---------------------------------------------------------------- one look

  /** A sweep looking at a device with a connection `a`: it sends `a` a heartbeat, and lists
      nothing, if and only if `a` was heard from within three intervals of the sweep's start.
      Otherwise it lists the device and judges `a`. A device without a connection it passes by. */
  lemma ScanJudgesIff(h: Hub, t: Task)
    requires Inv(h) && Enabled(h, Scan(t)) && h.tasks[t].todo != []
    ensures var Scanning(at, todo, dead, judged) := h.tasks[t];
            var d := todo[0];
            (d in h.conns ==> h.conns[d] in h.beat) &&
            Next(h, Scan(t)) == h.(tasks := h.tasks[t :=
              if d !in h.conns then Scanning(at, todo[1..], dead, judged)
              else if at.now - h.beat[h.conns[d]] <= 3.0 * at.interval
              then Pinging(d, h.conns[d], at, todo[1..], dead, judged)
              else Scanning(at, todo[1..], dead + [d], judged + {h.conns[d]})])
  {
    var d := h.tasks[t].todo[0];
    if d in h.conns { assert InMap(h, h.conns[d]); }
  }

  // ---------------------------------------------------------------- when a connection was heard

  datatype Heard = Never | At(when: real)

  /** What the step adds to the record of when `a` was heard: accepting it and its heartbeats. */
  function Hearing(h: Hub, s: Step, a: Sock, was: Heard): Heard
    requires Enabled(h, s)
  {
    if s.AcceptOk? && h.tasks[s.t].sock == a then At(s.now)
    else if s.Beat? && s.sock == a && was.At? then At(s.now)
    else was
  }

  /** When `a` was last heard, read off the steps of the run. */
  function LastHeard(h: Hub, steps: seq<Step>, a: Sock, was: Heard): Heard
    requires Runs(h, steps)
    decreases steps
  {
    if steps == [] then was
    else LastHeard(Next(h, steps[0]), steps[1..], a, Hearing(h, steps[0], a, was))
  }

  predicate Records(h: Hub, a: Sock, heard: Heard) {
    (a in h.beat <==> heard.At?) && (heard.At? ==> h.beat[a] == heard.when)
  }

  lemma {:induction false} SendNextKeepsBeats(h: Hub, t: Task, devs: seq<Dev>)
    ensures SendNext(h, t, devs).beat == h.beat
    decreases devs
  {
    if devs != [] && devs[0] !in h.conns { SendNextKeepsBeats(h, t, devs[1..]); }
  }

  lemma ResumeKeepsBeats(h: Hub, t: Task, next: Then)
    ensures Resume(h, t, next).beat == h.beat
  {
    if next.SendRest? { SendNextKeepsBeats(h, t, next.rest); }
  }

  lemma HearingRecords(h: Hub, s: Step, a: Sock, was: Heard)
    requires Enabled(h, s) && Records(h, a, was)
    requires !s.Drop? && !s.CloseDone? && !s.StartSend? && !s.SendDone? && !s.Scan?
    ensures Records(Next(h, s), a, Hearing(h, s, a, was))
  {}

  lemma StepRecords(h: Hub, s: Step, a: Sock, was: Heard)
    requires Enabled(h, s) && Records(h, a, was)
    ensures Records(Next(h, s), a, Hearing(h, s, a, was))
  {
    match s
    case Drop(t) => ResumeKeepsBeats(h, t, h.tasks[t].next);
    case CloseDone(t) => ResumeKeepsBeats(h.(lock := Free), t, h.tasks[t].next);
    case StartSend(t, devs) => SendNextKeepsBeats(h, t, devs);
    case SendDone(t, ok) => SendNextKeepsBeats(h, t, h.tasks[t].rest);
    case Scan(t) => ResumeKeepsBeats(h, t, DropRest(h.tasks[t].dead, h.tasks[t].judged));
    case _ => HearingRecords(h, s, a, was);
  }

  /** The time the hub has for a connection is that of the last accept or heartbeat of the run. */
  lemma {:induction false} BeatIsLastHeard(h: Hub, steps: seq<Step>, a: Sock, was: Heard)
    requires Runs(h, steps) && Records(h, a, was)
    ensures Records(Exec(h, steps), a, LastHeard(h, steps, a, was))
    decreases steps
  {
    if steps != [] {
      StepRecords(h, steps[0], a, was);
      BeatIsLastHeard(Next(h, steps[0]), steps[1..], a, Hearing(h, steps[0], a, was));
    }
  }

  // ---------------------------------------------------------------- a whole sweep

  /** The sweep is looking at a device whose connection is `a`. */
  predicate LooksAt(h: Hub, t: Task, a: Sock) {
    t in h.tasks && h.tasks[t].Scanning? && h.tasks[t].todo != [] &&
    h.tasks[t].todo[0] in h.conns && h.conns[h.tasks[t].todo[0]] == a
  }

  /** The sweep is sending a heartbeat to `a`. */
  predicate Pings(h: Hub, t: Task, a: Sock) {
    t in h.tasks && h.tasks[t].Pinging? && h.tasks[t].sock == a
  }

  /** The step has the sweep judge `a`: it looks at `a` too long after it was last heard, or its
      heartbeat to `a` has failed. */
  predicate JudgesNow(h: Hub, s: Step, t: Task, at: Clock, a: Sock, heard: Heard) {
    || (s == Scan(t) && LooksAt(h, t, a) && heard.At? && at.now - heard.when > 3.0 * at.interval)
    || (s == PingDone(t, false) && Pings(h, t, a))
  }

  /** During the run the sweep looks at `a` when it was last heard more than three intervals before
      the sweep's start, or its heartbeat to `a` fails. */
  predicate JudgedIn(h: Hub, steps: seq<Step>, t: Task, at: Clock, a: Sock, heard: Heard)
    requires Runs(h, steps)
    decreases steps
  {
    steps != [] &&
    (JudgesNow(h, steps[0], t, at, a, heard) ||
      JudgedIn(Next(h, steps[0]), steps[1..], t, at, a, Hearing(h, steps[0], a, heard)))
  }

  /** Where a sweep is between its start and its end. */
  predicate Sweeps(h: Hub, t: Task, at: Clock) {
    t in h.tasks ==>
    match h.tasks[t]
    case Scanning(began, _, dead, judged) => began == at && (dead == [] ==> judged == {})
    case Pinging(_, _, began, _, dead, judged) => began == at && (dead == [] ==> judged == {})
    case WantDrop(_, next) => next.DropRest?
    case Closing(_, next) => next.DropRest?
    case _ => false
  }

  /** The task's own steps in the run are looks and heartbeats. */
  predicate OnlySweeps(steps: seq<Step>, t: Task) {
    forall i :: 0 <= i < |steps| && IsBy(steps[i], t) ==> steps[i].Scan? || steps[i].PingDone?
  }

  lemma {:induction false} SendNextTasks(h: Hub, u: Task, devs: seq<Dev>)
    ensures SendNext(h, u, devs).tasks.Keys <= h.tasks.Keys + {u}
    decreases devs
  {
    if devs != [] && devs[0] !in h.conns { SendNextTasks(h, u, devs[1..]); }
  }

  lemma ResumeTasks(h: Hub, u: Task, next: Then)
    ensures Resume(h, u, next).tasks.Keys <= h.tasks.Keys + {u}
  {
    if next.SendRest? { SendNextTasks(h, u, next.rest); }
  }

  lemma OthersBringNoTask(h: Hub, s: Step, t: Task)
    requires Enabled(h, s) && !IsBy(s, t) && t !in h.tasks
    ensures t !in Next(h, s).tasks
  {
    match s
    case Drop(u) => ResumeTasks(h, u, h.tasks[u].next);
    case CloseDone(u) => ResumeTasks(h.(lock := Free), u, h.tasks[u].next);
    case StartSend(u, devs) => SendNextTasks(h, u, devs);
    case SendDone(u, ok) => SendNextTasks(h, u, h.tasks[u].rest);
    case Scan(u) => ResumeTasks(h, u, DropRest(h.tasks[u].dead, h.tasks[u].judged));
    case _ =>
  }

  lemma OthersJudgeNothing(h: Hub, s: Step, t: Task, at: Clock)
    requires Enabled(h, s) && Sweeps(h, t, at) && !IsBy(s, t)
    ensures Sweeps(Next(h, s), t, at) && JudgedBy(Next(h, s), t) == JudgedBy(h, t)
  {
    if t in h.tasks {
      OthersKeepTask(h, s, t);
    } else {
      OthersBringNoTask(h, s, t);
    }
  }

  /** A look judges `a` if and only if it looks at `a` and finds it too long unheard. */
  lemma LookJudges(h: Hub, t: Task, at: Clock, a: Sock, heard: Heard)
    requires Inv(h) && Enabled(h, Scan(t)) && Sweeps(h, t, at) && Records(h, a, heard)
    ensures Sweeps(Next(h, Scan(t)), t, at)
    ensures a in JudgedBy(Next(h, Scan(t)), t) <==>
              a in JudgedBy(h, t) || (LooksAt(h, t, a) && heard.At? && at.now - heard.when > 3.0 * at.interval)
  {
    var pc := h.tasks[t];
    if pc.todo != [] { ScanJudgesIff(h, t); }
  }

  lemma HeartbeatJudges(h: Hub, t: Task, ok: bool, at: Clock, a: Sock)
    requires Enabled(h, PingDone(t, ok)) && Sweeps(h, t, at)
    ensures Sweeps(Next(h, PingDone(t, ok)), t, at)
    ensures a in JudgedBy(Next(h, PingDone(t, ok)), t) <==> a in JudgedBy(h, t) || (!ok && Pings(h, t, a))
  {}

  lemma StepJudges(h: Hub, s: Step, t: Task, at: Clock, a: Sock, heard: Heard)
    requires Inv(h) && Enabled(h, s) && Sweeps(h, t, at) && Records(h, a, heard)
    requires IsBy(s, t) ==> s.Scan? || s.PingDone?
    ensures Sweeps(Next(h, s), t, at)
    ensures a in JudgedBy(Next(h, s), t) <==> a in JudgedBy(h, t) || JudgesNow(h, s, t, at, a, heard)
  {
    if !IsBy(s, t) {
      OthersJudgeNothing(h, s, t, at);
    } else if s.Scan? {
      LookJudges(h, t, at, a, heard);
    } else {
      HeartbeatJudges(h, t, s.ok, at, a);
    }
  }

  /** In any run from within a sweep, it judges just what the run's own times and heartbeats say. */
  lemma {:induction false} JudgedIff(h: Hub, steps: seq<Step>, t: Task, at: Clock, a: Sock, heard: Heard)
    requires Inv(h) && Runs(h, steps) && Sweeps(h, t, at) && OnlySweeps(steps, t) && Records(h, a, heard)
    ensures a in JudgedBy(Exec(h, steps), t) <==> a in JudgedBy(h, t) || JudgedIn(h, steps, t, at, a, heard)
    decreases steps
  {
    if steps != [] {
      NextKeepsInv(h, steps[0]);
      StepRecords(h, steps[0], a, heard);
      StepJudges(h, steps[0], t, at, a, heard);
      JudgedIff(Next(h, steps[0]), steps[1..], t, at, a, Hearing(h, steps[0], a, heard));
    }
  }

  // ---------------------------------------------------------------- the list of devices

  lemma {:induction false} SendNextAccepts(h: Hub, u: Task, devs: seq<Dev>)
    ensures SendNext(h, u, devs).accepted == h.accepted
    decreases devs
  {
    if devs != [] && devs[0] !in h.conns { SendNextAccepts(h, u, devs[1..]); }
  }

  lemma ResumeAccepts(h: Hub, u: Task, next: Then)
    ensures Resume(h, u, next).accepted == h.accepted
  {
    if next.SendRest? { SendNextAccepts(h, u, next.rest); }
  }

  /** A connection stays its device's. */
  lemma StepKeepsAccepted(h: Hub, s: Step, a: Sock)
    requires Inv(h) && Enabled(h, s) && a in h.accepted
    ensures a in Next(h, s).accepted && Next(h, s).accepted[a] == h.accepted[a]
  {
    match s
    case Drop(u) => ResumeAccepts(h, u, h.tasks[u].next);
    case CloseDone(u) => ResumeAccepts(h.(lock := Free), u, h.tasks[u].next);
    case StartSend(u, devs) => SendNextAccepts(h, u, devs);
    case SendDone(u, ok) => SendNextAccepts(h, u, h.tasks[u].rest);
    case Scan(u) => ResumeAccepts(h, u, DropRest(h.tasks[u].dead, h.tasks[u].judged));
    case AcceptOk(u, _) => assert TaskOk(h, u, h.tasks[u]);
    case _ =>
  }

  /** `a` is a judged connection of the device. */
  predicate JudgedFor(h: Hub, judged: set<Sock>, d: Dev, a: Sock) {
    a in judged && a in h.accepted && h.accepted[a] == d
  }

  ghost predicate ListIs(h: Hub, dead: seq<Dev>, judged: set<Sock>) {
    && (forall d :: d in dead ==> exists a :: JudgedFor(h, judged, d, a))
    && (forall a :: a in judged ==> a in h.accepted && h.accepted[a] in dead)
  }

  /** While a sweep is listing, its list is that of the devices whose connections it judged. */
  ghost predicate ListsJudged(h: Hub, t: Task) {
    t in h.tasks && (h.tasks[t].Scanning? || h.tasks[t].Pinging?) ==>
      ListIs(h, h.tasks[t].dead, h.tasks[t].judged)
  }

  /** Connections stay their devices'. */
  ghost predicate KeepsAccepted(h: Hub, h': Hub) {
    forall a :: a in h.accepted ==> a in h'.accepted && h'.accepted[a] == h.accepted[a]
  }

  lemma StepsKeepAccepted(h: Hub, s: Step)
    requires Inv(h) && Enabled(h, s)
    ensures KeepsAccepted(h, Next(h, s))
  {
    forall a | a in h.accepted ensures a in Next(h, s).accepted && Next(h, s).accepted[a] == h.accepted[a] {
      StepKeepsAccepted(h, s, a);
    }
  }

  lemma ListStays(h: Hub, h': Hub, dead: seq<Dev>, judged: set<Sock>)
    requires KeepsAccepted(h, h') && ListIs(h, dead, judged)
    ensures ListIs(h', dead, judged)
  {
    forall d | d in dead ensures exists a :: JudgedFor(h', judged, d, a) {
      var a :| JudgedFor(h, judged, d, a);
      assert JudgedFor(h', judged, d, a);
    }
  }

  lemma ListGrows(h: Hub, dead: seq<Dev>, judged: set<Sock>, d: Dev, a: Sock)
    requires ListIs(h, dead, judged) && a in h.accepted && h.accepted[a] == d
    ensures ListIs(h, dead + [d], judged + {a})
  {
    assert JudgedFor(h, judged + {a}, d, a);
    forall e | e in dead ensures exists b :: JudgedFor(h, judged + {a}, e, b) {
      var b :| JudgedFor(h, judged, e, b);
      assert JudgedFor(h, judged + {a}, e, b);
    }
  }

  lemma StepLists(h: Hub, s: Step, t: Task)
    requires Inv(h) && Enabled(h, s) && ListsJudged(h, t) && t in h.tasks
    requires IsBy(s, t) ==> s.Scan? || s.PingDone?
    ensures ListsJudged(Next(h, s), t)
  {
    if !IsBy(s, t) {
      OthersKeepTask(h, s, t);
      StepsKeepAccepted(h, s);
      if h.tasks[t].Scanning? || h.tasks[t].Pinging? {
        ListStays(h, Next(h, s), h.tasks[t].dead, h.tasks[t].judged);
      }
    } else {
      var pc := h.tasks[t];
      StepsKeepAccepted(h, s);
      ListStays(h, Next(h, s), pc.dead, pc.judged);
      assert TaskOk(h, t, pc);
      if s.PingDone? {
        ListGrows(Next(h, s), pc.dead, pc.judged, pc.dev, pc.sock);
      } else if pc.todo != [] && pc.todo[0] in h.conns {
        assert InMap(h, h.conns[pc.todo[0]]);
        ListGrows(Next(h, s), pc.dead, pc.judged, pc.todo[0], h.conns[pc.todo[0]]);
      }
    }
  }

  lemma {:induction false} ExecLists(h: Hub, steps: seq<Step>, t: Task)
    requires Inv(h) && Runs(h, steps) && ListsJudged(h, t) && OnlySweeps(steps, t)
    ensures ListsJudged(Exec(h, steps), t)
    decreases steps
  {
    if steps != [] {
      NextKeepsInv(h, steps[0]);
      if t in h.tasks {
        StepLists(h, steps[0], t);
      } else {
        OthersBringNoTask(h, steps[0], t);
      }
      ExecLists(Next(h, steps[0]), steps[1..], t);
    }
  }

  // ---------------------------------------------------------------- theorems

  /** Of all the runs a sweep can be part of, it judges a connection in just those where it looks
      at it when the connection's last accept or heartbeat lies more than three intervals before the
      sweep's start, or sends it a heartbeat that fails. */
  lemma SweepJudgesIff(before: seq<Step>, t: Task, at: Clock, devs: seq<Dev>, steps: seq<Step>, a: Sock)
    requires Runs(INIT, before) && Enabled(Exec(INIT, before), StartSweep(t, at, devs))
    requires Runs(Next(Exec(INIT, before), StartSweep(t, at, devs)), steps) && OnlySweeps(steps, t)
    ensures var h := Next(Exec(INIT, before), StartSweep(t, at, devs));
            a in JudgedBy(Exec(h, steps), t) <==>
              JudgedIn(h, steps, t, at, a, LastHeard(INIT, before, a, Never))
  {
    var h0, s := Exec(INIT, before), StartSweep(t, at, devs);
    ExecKeepsInv(INIT, before);
    NextKeepsInv(h0, s);
    BeatIsLastHeard(INIT, before, a, Never);
    JudgedIff(Next(h0, s), steps, t, at, a, LastHeard(INIT, before, a, Never));
  }

  lemma StartLists(before: seq<Step>, t: Task, at: Clock, devs: seq<Dev>, steps: seq<Step>)
    requires Runs(INIT, before) && Enabled(Exec(INIT, before), StartSweep(t, at, devs))
    requires Runs(Next(Exec(INIT, before), StartSweep(t, at, devs)), steps) && OnlySweeps(steps, t)
    ensures ListsJudged(Exec(Next(Exec(INIT, before), StartSweep(t, at, devs)), steps), t)
  {
    ExecKeepsInv(INIT, before);
    NextKeepsInv(Exec(INIT, before), StartSweep(t, at, devs));
    ExecLists(Next(Exec(INIT, before), StartSweep(t, at, devs)), steps, t);
  }

  /** As long as the sweep is listing, a device is on its list if and only if it looked at one of the
      device's connections too long after it was last heard, or its heartbeat to one failed. */
  lemma SweepListsIff(before: seq<Step>, t: Task, at: Clock, devs: seq<Dev>, steps: seq<Step>, d: Dev)
    requires Runs(INIT, before) && Enabled(Exec(INIT, before), StartSweep(t, at, devs))
    requires Runs(Next(Exec(INIT, before), StartSweep(t, at, devs)), steps) && OnlySweeps(steps, t)
    requires var g := Exec(Next(Exec(INIT, before), StartSweep(t, at, devs)), steps);
             t in g.tasks && (g.tasks[t].Scanning? || g.tasks[t].Pinging?)
    ensures var h := Next(Exec(INIT, before), StartSweep(t, at, devs));
            var g := Exec(h, steps);
            d in g.tasks[t].dead <==>
              exists a :: a in g.accepted && g.accepted[a] == d &&
                          JudgedIn(h, steps, t, at, a, LastHeard(INIT, before, a, Never))
  {
    var h := Next(Exec(INIT, before), StartSweep(t, at, devs));
    var g := Exec(h, steps);
    StartLists(before, t, at, devs, steps);
    if d in g.tasks[t].dead {
      var a :| JudgedFor(g, g.tasks[t].judged, d, a);
      SweepJudgesIff(before, t, at, devs, steps, a);
    }
    forall a | a in g.accepted && g.accepted[a] == d && JudgedIn(h, steps, t, at, a, LastHeard(INIT, before, a, Never))
      ensures d in g.tasks[t].dead
    {
      SweepJudgesIff(before, t, at, devs, steps, a);
    }
  }

  /** Whenever `a` is heard in the run, it is within three intervals of the sweep's start, and no
      heartbeat of the sweep to `a` fails. */
  predicate StaysHealthy(h: Hub, steps: seq<Step>, t: Task, at: Clock, a: Sock)
    requires Runs(h, steps)
    decreases steps
  {
    steps == [] ||
    ( && (steps[0].AcceptOk? && h.tasks[steps[0].t].sock == a ==> at.now - steps[0].now <= 3.0 * at.interval)
      && (steps[0].Beat? && steps[0].sock == a ==> at.now - steps[0].now <= 3.0 * at.interval)
      && !(steps[0] == PingDone(t, false) && Pings(h, t, a))
      && StaysHealthy(Next(h, steps[0]), steps[1..], t, at, a))
  }

  lemma {:induction false} HealthyIsNotJudged(h: Hub, steps: seq<Step>, t: Task, at: Clock, a: Sock, heard: Heard)
    requires Runs(h, steps) && StaysHealthy(h, steps, t, at, a)
    requires heard.At? ==> at.now - heard.when <= 3.0 * at.interval
    ensures !JudgedIn(h, steps, t, at, a, heard)
    decreases steps
  {
    if steps != [] {
      HealthyIsNotJudged(Next(h, steps[0]), steps[1..], t, at, a, Hearing(h, steps[0], a, heard));
    }
  }

  /** A connection last heard within three intervals of the sweep's start, that keeps to that, and
      whose heartbeat does not fail, is not judged by that sweep. */
  lemma SweepSparesHealthy(before: seq<Step>, t: Task, at: Clock, devs: seq<Dev>, steps: seq<Step>, a: Sock)
    requires Runs(INIT, before) && Enabled(Exec(INIT, before), StartSweep(t, at, devs))
    requires Runs(Next(Exec(INIT, before), StartSweep(t, at, devs)), steps) && OnlySweeps(steps, t)
    requires var heard := LastHeard(INIT, before, a, Never);
             heard.At? ==> at.now - heard.when <= 3.0 * at.interval
    requires StaysHealthy(Next(Exec(INIT, before), StartSweep(t, at, devs)), steps, t, at, a)
    ensures a !in JudgedBy(Exec(Next(Exec(INIT, before), StartSweep(t, at, devs)), steps), t)
  {
    SweepJudgesIff(before, t, at, devs, steps, a);
    HealthyIsNotJudged(Next(Exec(INIT, before), StartSweep(t, at, devs)), steps, t, at, a,
                       LastHeard(INIT, before, a, Never));
  }
}
