/** Whom a disconnect hits. disconnect is told a device, not a connection: a failed send and a
    heartbeat sweep that mean one connection remove whichever the device has by then. */
module HubRemovals {
  import opened ConnectionHub

  // ---------------------------------------------------------------- the map over a run

  /** The step puts a connection in the map for the device. */
  predicate RegistersFor(h: Hub, s: Step, d: Dev)
    requires Enabled(h, s)
  {
    (s.Register? && h.tasks[s.t].dev == d && d !in h.conns) || (s.CloseOldDone? && h.tasks[s.t].dev == d)
  }

  /** The step takes whatever the device has out of the map. */
  predicate Drops(h: Hub, s: Step, d: Dev)
    requires Enabled(h, s)
  {
    s.Drop? && h.tasks[s.t].dev == d
  }

  predicate DroppedIn(h: Hub, steps: seq<Step>, d: Dev)
    requires Runs(h, steps)
    decreases steps
  {
    steps != [] && (Drops(h, steps[0], d) || DroppedIn(Next(h, steps[0]), steps[1..], d))
  }

  /** A connection is registered for the device during the run, and the device is not dropped
      again before the run ends. */
  predicate RegisteredIn(h: Hub, steps: seq<Step>, d: Dev)
    requires Runs(h, steps)
    decreases steps
  {
    steps != [] &&
    var h' := Next(h, steps[0]);
    (RegistersFor(h, steps[0], d) && !DroppedIn(h', steps[1..], d)) || RegisteredIn(h', steps[1..], d)
  }

  /** The device has a connection other than `a`. */
  predicate HasOther(h: Hub, d: Dev, a: Sock) {
    d in h.conns && h.conns[d] != a
  }

  lemma {:induction false} SendNextKeepsMap(h: Hub, t: Task, devs: seq<Dev>)
    ensures var h' := SendNext(h, t, devs);
            h'.conns == h.conns && h'.closed == h.closed && h'.registered == h.registered
    decreases devs
  {
    if devs != [] && devs[0] !in h.conns { SendNextKeepsMap(h, t, devs[1..]); }
  }

  lemma ResumeKeepsMap(h: Hub, t: Task, next: Then)
    ensures var h' := Resume(h, t, next);
            h'.conns == h.conns && h'.closed == h.closed && h'.registered == h.registered
  {
    if next.SendRest? { SendNextKeepsMap(h, t, next.rest); }
  }

  /** Only a registration and a drop change what the map says of a device. */
  lemma StepOnMap(h: Hub, s: Step, d: Dev)
    requires Enabled(h, s)
    ensures h.registered <= Next(h, s).registered
    ensures var h' := Next(h, s);
            if RegistersFor(h, s, d) then d in h'.conns && h'.conns[d] == h.tasks[s.t].sock
            else if Drops(h, s, d) then d !in h'.conns
            else (d in h'.conns <==> d in h.conns) && (d in h.conns ==> h'.conns[d] == h.conns[d])
  {
    match s
    case Drop(t) => ResumeKeepsMap(h, t, h.tasks[t].next);
    case CloseDone(t) => ResumeKeepsMap(h.(lock := Free), t, h.tasks[t].next);
    case StartSend(t, devs) => SendNextKeepsMap(h, t, devs);
    case SendDone(t, ok) => SendNextKeepsMap(h, t, h.tasks[t].rest);
    case Scan(t) => ResumeKeepsMap(h, t, DropRest(h.tasks[t].dead, h.tasks[t].judged));
    case _ =>
  }

  lemma StepOnOther(h: Hub, s: Step, d: Dev, a: Sock)
    requires Inv(h) && Enabled(h, s) && a in h.registered
    ensures a in Next(h, s).registered
    ensures HasOther(Next(h, s), d, a) <==> RegistersFor(h, s, d) || (HasOther(h, d, a) && !Drops(h, s, d))
  {
    StepOnMap(h, s, d);
    if s.Register? || s.CloseOldDone? {
      assert TaskOk(h, s.t, h.tasks[s.t]);
    }
  }

  lemma {:induction false} OtherIff(h: Hub, steps: seq<Step>, d: Dev, a: Sock)
    requires Inv(h) && Runs(h, steps) && a in h.registered
    ensures HasOther(Exec(h, steps), d, a) <==>
              RegisteredIn(h, steps, d) || (HasOther(h, d, a) && !DroppedIn(h, steps, d))
    decreases steps
  {
    if steps != [] {
      StepOnOther(h, steps[0], d, a);
      NextKeepsInv(h, steps[0]);
      OtherIff(Next(h, steps[0]), steps[1..], d, a);
    }
  }

  // ---------------------------------------------------------------- one removal

  /** The step removes and closes a registered connection of the device that is not `a`. */
  ghost predicate ClosesAnother(h: Hub, s: Step, d: Dev, a: Sock)
    requires Enabled(h, s)
  {
    exists b :: b != a && InMap(h, b) && h.accepted[b] == d && !InMap(Next(h, s), b) && b in Next(h, s).closed
  }

  /** A removal hits another connection than the one meant exactly when the device has another by
      then: the comparison that disconnect does not make. */
  lemma DropClosesAnotherIff(h: Hub, t: Task, a: Sock)
    requires Inv(h) && Enabled(h, Drop(t))
    ensures ClosesAnother(h, Drop(t), h.tasks[t].dev, a) <==> HasOther(h, h.tasks[t].dev, a)
  {
    var d, h' := h.tasks[t].dev, Next(h, Drop(t));
    StepOnMap(h, Drop(t), d);
    if HasOther(h, d, a) {
      var b := h.conns[d];
      assert b != a && InMap(h, b) && h.accepted[b] == d;
      assert h'.accepted == h.accepted && !InMap(h', b);
    }
  }

  // ---------------------------------------------------------------- failed sends

  predicate IsBy(s: Step, t: Task) {
    !s.Beat? && s.t == t
  }

  function OwnSteps(steps: seq<Step>, t: Task): seq<Step> {
    if steps == [] then []
    else (if IsBy(steps[0], t) then [steps[0]] else []) + OwnSteps(steps[1..], t)
  }

  lemma OthersKeepTask(h: Hub, s: Step, t: Task)
    requires Enabled(h, s) && !IsBy(s, t) && t in h.tasks
    ensures t in Next(h, s).tasks && Next(h, s).tasks[t] == h.tasks[t]
  {
    if s.Scan? {
      ScanningStep(h, s.t);
    } else if s.Drop? || s.CloseDone? || s.StartSend? || s.SendDone? {
      var u := ResumingStep(h, s);
    }
  }

  lemma {:induction false} WaitsForOwnStep(h: Hub, steps: seq<Step>, t: Task)
    requires Runs(h, steps) && t in h.tasks && OwnSteps(steps, t) == []
    ensures t in Exec(h, steps).tasks && Exec(h, steps).tasks[t] == h.tasks[t]
    decreases steps
  {
    if steps != [] {
      OthersKeepTask(h, steps[0], t);
      WaitsForOwnStep(Next(h, steps[0]), steps[1..], t);
    }
  }

  lemma {:induction false} SendFails(h: Hub, steps: seq<Step>, t: Task)
    requires Runs(h, steps) && t in h.tasks && h.tasks[t].Sending? && OwnSteps(steps, t) == [SendDone(t, false)]
    ensures var pc, h' := h.tasks[t], Exec(h, steps);
            t in h'.tasks && h'.tasks[t] == WantDrop(pc.dev, SendRest(pc.rest))
    decreases steps
  {
    var h' := Next(h, steps[0]);
    if IsBy(steps[0], t) {
      assert OwnSteps(steps, t)[0] == steps[0] && OwnSteps(steps, t)[1..] == OwnSteps(steps[1..], t);
      WaitsForOwnStep(h', steps[1..], t);
    } else {
      OthersKeepTask(h, steps[0], t);
      SendFails(h', steps[1..], t);
    }
  }

  /** The task, if it is sending, sends on the connection its device has. */
  predicate SendsOnRegistered(h: Hub, t: Task) {
    t in h.tasks && h.tasks[t].Sending? ==>
      h.tasks[t].dev in h.conns && h.conns[h.tasks[t].dev] == h.tasks[t].sock
  }

  lemma {:induction false} SendNextTakes(h: Hub, t: Task, devs: seq<Dev>)
    ensures SendsOnRegistered(SendNext(h, t, devs), t)
    decreases devs
  {
    if devs != [] && devs[0] !in h.conns { SendNextTakes(h, t, devs[1..]); }
  }

  lemma ResumeTakes(h: Hub, t: Task, next: Then)
    ensures SendsOnRegistered(Resume(h, t, next), t)
  {
    if next.SendRest? { SendNextTakes(h, t, next.rest); }
  }

  /** A task that begins to send takes the connection its device has at that moment. */
  lemma SendTakesRegistered(h: Hub, s: Step)
    requires Enabled(h, s) && !s.Beat?
    ensures SendsOnRegistered(Next(h, s), s.t)
  {
    match s
    case Drop(t) => ResumeTakes(h, t, h.tasks[t].next);
    case CloseDone(t) => ResumeTakes(h.(lock := Free), t, h.tasks[t].next);
    case StartSend(t, devs) => SendNextTakes(h, t, devs);
    case SendDone(t, ok) => SendNextTakes(h, t, h.tasks[t].rest);
    case Scan(t) => ResumeTakes(h, t, DropRest(h.tasks[t].dead, h.tasks[t].judged));
    case _ =>
  }

  /** A send that took the connection `a` and fails on it: whatever else happens before its
      disconnect runs, that closes another connection if and only if one was registered for the
      device since `a` was taken and the device was not dropped after that. */
  lemma FailedSendClosesAnotherIff(h: Hub, t: Task, steps: seq<Step>)
    requires Inv(h) && t in h.tasks && h.tasks[t].Sending? && SendsOnRegistered(h, t)
    requires Runs(h, steps) && OwnSteps(steps, t) == [SendDone(t, false)]
    requires Enabled(Exec(h, steps), Drop(t))
    ensures ClosesAnother(Exec(h, steps), Drop(t), h.tasks[t].dev, h.tasks[t].sock) <==>
              RegisteredIn(h, steps, h.tasks[t].dev)
  {
    SendFails(h, steps, t);
    OtherIff(h, steps, h.tasks[t].dev, h.tasks[t].sock);
    ExecKeepsInv(h, steps);
    DropClosesAnotherIff(Exec(h, steps), t, h.tasks[t].sock);
  }

  // ---------------------------------------------------------------- disconnects

  lemma {:induction false} DisconnectWaits(h: Hub, steps: seq<Step>, t: Task, d: Dev)
    requires Runs(h, steps) && OwnSteps(steps, t) == [StartDisconnect(t, d)]
    ensures t in Exec(h, steps).tasks && Exec(h, steps).tasks[t] == WantDrop(d, Finish)
    decreases steps
  {
    var h' := Next(h, steps[0]);
    if IsBy(steps[0], t) {
      assert OwnSteps(steps, t)[0] == steps[0] && OwnSteps(steps, t)[1..] == OwnSteps(steps[1..], t);
      WaitsForOwnStep(h', steps[1..], t);
    } else {
      DisconnectWaits(h', steps[1..], t, d);
    }
  }

  /** A disconnect meant for the connection `a` of the device, as when its socket ends: by the time it
      runs it closes another connection if and only if one was registered for the device since `a`
      was there and the device was not dropped after that. */
  lemma DisconnectClosesAnotherIff(h: Hub, t: Task, d: Dev, steps: seq<Step>)
    requires Inv(h) && d in h.conns
    requires Runs(h, steps) && OwnSteps(steps, t) == [StartDisconnect(t, d)]
    requires Enabled(Exec(h, steps), Drop(t))
    ensures ClosesAnother(Exec(h, steps), Drop(t), d, h.conns[d]) <==> RegisteredIn(h, steps, d)
  {
    DisconnectWaits(h, steps, t, d);
    OtherIff(h, steps, d, h.conns[d]);
    ExecKeepsInv(h, steps);
    DropClosesAnotherIff(Exec(h, steps), t, h.conns[d]);
  }

  // ---------------------------------------------------------------- sweeps

  /** The sweep has the device on its list to drop. */
  predicate Listed(h: Hub, t: Task, d: Dev) {
    t in h.tasks &&
    match h.tasks[t]
    case WantDrop(dev, DropRest(rest, _)) => d == dev || d in rest
    case Closing(_, DropRest(rest, _)) => d in rest
    case Scanning(_, _, dead, _) => d in dead
    case Pinging(_, _, _, _, dead, _) => d in dead
    case _ => false
  }

  lemma ResumeKeepsListed(h: Hub, t: Task, next: Then, d: Dev)
    requires next.DropRest? && d in next.rest
    ensures Listed(Resume(h, t, next), t, d)
  {}

  lemma StepKeepsListed(h: Hub, s: Step, t: Task, d: Dev)
    requires Enabled(h, s) && Listed(h, t, d) && !(s == Drop(t) && h.tasks[t].dev == d)
    ensures Listed(Next(h, s), t, d)
  {
    if !IsBy(s, t) {
      OthersKeepTask(h, s, t);
    } else {
      match s
      case Drop(_) => if h.tasks[t].dev !in h.conns { ResumeKeepsListed(h, t, h.tasks[t].next, d); }
      case CloseDone(_) => ResumeKeepsListed(h.(lock := Free), t, h.tasks[t].next, d);
      case Scan(_) =>
        if h.tasks[t].todo == [] { ResumeKeepsListed(h, t, DropRest(h.tasks[t].dead, h.tasks[t].judged), d); }
      case _ =>
    }
  }

  /** Step `i` is the sweep's removal of the device. */
  predicate IsDropAt(h: Hub, steps: seq<Step>, i: nat, t: Task, d: Dev) {
    i < |steps| && Runs(h, steps[..i]) && steps[i] == Drop(t) && Enabled(Exec(h, steps[..i]), Drop(t)) &&
    Exec(h, steps[..i]).tasks[t].dev == d
  }

  lemma DropShifts(h: Hub, steps: seq<Step>, i: nat, t: Task, d: Dev)
    requires Runs(h, steps) && steps != [] && IsDropAt(Next(h, steps[0]), steps[1..], i, t, d)
    ensures IsDropAt(h, steps, i + 1, t, d)
    ensures Exec(h, steps[..i + 1]) == Exec(Next(h, steps[0]), steps[1..][..i])
  {
    assert steps[..i + 1][1..] == steps[1..][..i];
    assert steps[..i + 1][0] == steps[0];
  }

  /** A sweep that ends has removed every device it listed. */
  lemma {:induction false} ListedIsDropped(h: Hub, steps: seq<Step>, t: Task, d: Dev) returns (i: nat)
    requires Runs(h, steps) && Listed(h, t, d) && t !in Exec(h, steps).tasks
    ensures IsDropAt(h, steps, i, t, d)
    decreases steps
  {
    if steps[0] == Drop(t) && h.tasks[t].dev == d {
      i := 0;
    } else {
      StepKeepsListed(h, steps[0], t, d);
      var j := ListedIsDropped(Next(h, steps[0]), steps[1..], t, d);
      DropShifts(h, steps, j, t, d);
      i := j + 1;
    }
  }

  /** The sweep's next step of its own says that the heartbeat failed. */
  predicate PingFails(steps: seq<Step>, t: Task) {
    var own := OwnSteps(steps, t);
    own != [] && own[0] == PingDone(t, false)
  }

  lemma {:induction false} PingedIsDropped(h: Hub, steps: seq<Step>, t: Task) returns (i: nat)
    requires Runs(h, steps) && t in h.tasks && h.tasks[t].Pinging? && PingFails(steps, t)
    requires t !in Exec(h, steps).tasks
    ensures IsDropAt(h, steps, i, t, h.tasks[t].dev)
    decreases steps
  {
    var h', d, j: nat := Next(h, steps[0]), h.tasks[t].dev, 0;
    if IsBy(steps[0], t) {
      j := ListedIsDropped(h', steps[1..], t, d);
    } else {
      OthersKeepTask(h, steps[0], t);
      j := PingedIsDropped(h', steps[1..], t);
    }
    DropShifts(h, steps, j, t, d);
    i := j + 1;
  }

  /** A sweep that looks up the connection `a`, finds that it was heard from more than three
      intervals before or cannot send to it, and ends: it has then removed the device, and at that
      step closed another connection than `a` if and only if one was registered for the device since
      the lookup and the device was not dropped after that. */
  lemma SweepClosesAnotherIff(h: Hub, t: Task, steps: seq<Step>) returns (i: nat)
    requires Inv(h) && Enabled(h, Scan(t)) && h.tasks[t].todo != [] && h.tasks[t].todo[0] in h.conns
    requires Runs(h, [Scan(t)] + steps) && t !in Exec(h, [Scan(t)] + steps).tasks
    requires var a, at := h.conns[h.tasks[t].todo[0]], h.tasks[t].at;
             (a in h.beat && at.now - h.beat[a] > 3.0 * at.interval) || PingFails(steps, t)
    ensures var run, d := [Scan(t)] + steps, h.tasks[t].todo[0];
            IsDropAt(h, run, i, t, d) &&
            (ClosesAnother(Exec(h, run[..i]), Drop(t), d, h.conns[d]) <==> RegisteredIn(h, run[..i], d))
  {
    var run, d := [Scan(t)] + steps, h.tasks[t].todo[0];
    var a, h' := h.conns[d], Next(h, Scan(t));
    assert run[1..] == steps;
    var j: nat;
    if a in h.beat && h.tasks[t].at.now - h.beat[a] > 3.0 * h.tasks[t].at.interval {
      j := ListedIsDropped(h', steps, t, d);
    } else {
      j := PingedIsDropped(h', steps, t);
    }
    DropShifts(h, run, j, t, d);
    i := j + 1;
    ExecKeepsInv(h, run[..i]);
    OtherIff(h, run[..i], d, a);
    DropClosesAnotherIff(Exec(h, run[..i]), t, a);
  }

  // ---------------------------------------------------------------- it happens

  /** The device connects again while something is still under way on its old connection. */
  function Reconnect(u: Task, d: Dev, b: Sock): seq<Step> {
    [Arrive(u, d, b), AcceptOk(u, 0.0), Register(u), CloseOldDone(u)]
  }

  /** What the hub is like afterwards. */
  function Reconnected(h: Hub, u: Task, d: Dev, b: Sock): Hub
    requires d in h.conns
  {
    h.(conns := h.conns[d := b], broughtBy := h.broughtBy[b := u], accepted := h.accepted[b := d],
       beat := h.beat[b := 0.0], registered := h.registered + {b}, closed := h.closed + {h.conns[d]})
  }

  lemma RunsFirst(h: Hub, s: Step, rest: seq<Step>, steps: seq<Step>)
    requires Enabled(h, s) && Runs(Next(h, s), rest) && steps == [s] + rest
    ensures Runs(h, steps) && Exec(h, steps) == Exec(Next(h, s), rest)
  {
    assert steps[1..] == rest;
  }

  lemma RunsOne(h: Hub, s: Step)
    requires Enabled(h, s)
    ensures Runs(h, [s]) && Exec(h, [s]) == Next(h, s)
  {
    RunsFirst(h, s, [], [s]);
  }

  lemma RunsTwo(h: Hub, s: Step, z: Step)
    requires Enabled(h, s) && Enabled(Next(h, s), z)
    ensures Runs(h, [s, z]) && Exec(h, [s, z]) == Next(Next(h, s), z)
  {
    RunsOne(Next(h, s), z);
    RunsFirst(h, s, [z], [s, z]);
  }

  /** Arriving and being accepted. */
  lemma Accepts(h: Hub, u: Task, d: Dev, b: Sock)
    requires u !in h.tasks && b !in h.broughtBy
    ensures Enabled(h, Arrive(u, d, b)) && Enabled(Next(h, Arrive(u, d, b)), AcceptOk(u, 0.0))
    ensures Next(Next(h, Arrive(u, d, b)), AcceptOk(u, 0.0)) == Accepted(h, u, d, b)
  {}

  /** Replacing the connection the device had. */
  lemma Replaces(h: Hub, u: Task, d: Dev, b: Sock)
    requires u in h.tasks && h.tasks[u] == WantRegister(d, b) && h.lock.Free? && d in h.conns
    ensures Enabled(h, Register(u)) && Enabled(Next(h, Register(u)), CloseOldDone(u))
    ensures Next(Next(h, Register(u)), CloseOldDone(u)) ==
              h.(tasks := h.tasks - {u}, conns := h.conns[d := b], registered := h.registered + {b},
                 closed := h.closed + {h.conns[d]})
  {}

  /** The hub with the new socket accepted and not yet registered. */
  function Accepted(h: Hub, u: Task, d: Dev, b: Sock): Hub {
    h.(tasks := h.tasks[u := WantRegister(d, b)], broughtBy := h.broughtBy[b := u],
       accepted := h.accepted[b := d], beat := h.beat[b := 0.0])
  }

  lemma AcceptRuns(h: Hub, u: Task, d: Dev, b: Sock)
    requires u !in h.tasks && b !in h.broughtBy
    ensures var es := [Arrive(u, d, b), AcceptOk(u, 0.0)];
            Runs(h, es) && Exec(h, es) == Accepted(h, u, d, b)
  {
    Accepts(h, u, d, b);
    RunsTwo(h, Arrive(u, d, b), AcceptOk(u, 0.0));
  }

  lemma ReplaceRuns(h: Hub, g: Hub, u: Task, d: Dev, b: Sock)
    requires g == Accepted(h, u, d, b) && h.lock.Free? && d in h.conns && u !in h.tasks
    ensures var es := [Register(u), CloseOldDone(u)];
            Runs(g, es) && Exec(g, es) == Reconnected(h, u, d, b)
  {
    Replaces(g, u, d, b);
    RunsTwo(g, Register(u), CloseOldDone(u));
    assert h.tasks[u := WantRegister(d, b)] - {u} == h.tasks;
  }

  lemma ReconnectRuns(h: Hub, u: Task, d: Dev, b: Sock)
    requires h.lock.Free? && d in h.conns && u !in h.tasks && b !in h.broughtBy
    ensures Runs(h, Reconnect(u, d, b)) && Exec(h, Reconnect(u, d, b)) == Reconnected(h, u, d, b)
  {
    AcceptRuns(h, u, d, b);
    ReplaceRuns(h, Accepted(h, u, d, b), u, d, b);
    RunsOn(h, [Arrive(u, d, b), AcceptOk(u, 0.0)], [Register(u), CloseOldDone(u)]);
    assert Reconnect(u, d, b) == [Arrive(u, d, b), AcceptOk(u, 0.0)] + [Register(u), CloseOldDone(u)];
  }

  lemma {:induction false} RunsOn(h: Hub, a: seq<Step>, b: seq<Step>)
    requires Runs(h, a) && Runs(Exec(h, a), b)
    ensures Runs(h, a + b) && Exec(h, a + b) == Exec(Exec(h, a), b)
    decreases a
  {
    if a == [] {
      assert a + b == b;
    } else {
      RunsOn(Next(h, a[0]), a[1..], b);
      assert (a + b)[1..] == a[1..] + b;
    }
  }

  /** The connection is registered and healthy, and then removed and closed. */
  ghost predicate LosesHealthy(h: Hub, h': Hub, b: Sock) {
    InMap(h, b) && b !in h.closed && !InMap(h', b) && b in h'.closed
  }

  lemma DropLoses(h: Hub, t: Task, d: Dev, b: Sock)
    requires Enabled(h, Drop(t)) && h.tasks[t].dev == d && b in h.accepted && h.accepted[b] == d
    requires d in h.conns && h.conns[d] == b && b !in h.closed
    ensures LosesHealthy(h, Next(h, Drop(t)), b)
  {}

  /** What a removal that is about to run would do. */
  lemma AboutToLose(h: Hub, es: seq<Step>, g: Hub, more: seq<Step>, t: Task, d: Dev, b: Sock)
    requires Runs(h, es) && Exec(h, es) == g && Runs(g, more)
    requires Enabled(Exec(g, more), Drop(t)) && Exec(g, more).tasks[t].dev == d
    requires Exec(g, more).conns == g.conns && Exec(g, more).accepted == g.accepted && Exec(g, more).closed == g.closed
    requires b in g.accepted && g.accepted[b] == d && d in g.conns && g.conns[d] == b && b !in g.closed
    ensures Runs(h, es + more) && Enabled(Exec(h, es + more), Drop(t))
    ensures LosesHealthy(Exec(h, es + more), Next(Exec(h, es + more), Drop(t)), b)
  {
    RunsOn(h, es, more);
    DropLoses(Exec(g, more), t, d, b);
  }

  /** A send hangs on the old connection while the device reconnects, and then fails: the healthy
      replacement `b`, on which nothing was ever sent, is removed and closed. */
  lemma FailedSendDropsReplacement(h: Hub, t: Task, u: Task, b: Sock)
    requires Inv(h) && h.lock.Free? && t in h.tasks && h.tasks[t].Sending? && SendsOnRegistered(h, t)
    requires u !in h.tasks && b !in h.broughtBy
    ensures var es := Reconnect(u, h.tasks[t].dev, b) + [SendDone(t, false)];
            Runs(h, es) && Enabled(Exec(h, es), Drop(t)) &&
            LosesHealthy(Exec(h, es), Next(Exec(h, es), Drop(t)), b)
  {
    var d := h.tasks[t].dev;
    ReconnectRuns(h, u, d, b);
    var g := Reconnected(h, u, d, b);
    RunsOne(g, SendDone(t, false));
    AboutToLose(h, Reconnect(u, d, b), g, [SendDone(t, false)], t, d, b);
  }

  /** A sweep's heartbeat hangs on the last connection of its list while the device reconnects, and
      then fails: the sweep removes and closes the healthy replacement. */
  lemma SweepDropsReplacement(h: Hub, t: Task, u: Task, b: Sock)
    requires Inv(h) && h.lock.Free? && t in h.tasks && h.tasks[t].Pinging?
    requires h.tasks[t].todo == [] && h.tasks[t].dead == [] && h.tasks[t].dev in h.conns
    requires u !in h.tasks && b !in h.broughtBy
    ensures var es := Reconnect(u, h.tasks[t].dev, b) + [PingDone(t, false), Scan(t)];
            Runs(h, es) && Enabled(Exec(h, es), Drop(t)) &&
            LosesHealthy(Exec(h, es), Next(Exec(h, es), Drop(t)), b)
  {
    var d := h.tasks[t].dev;
    ReconnectRuns(h, u, d, b);
    var g := Reconnected(h, u, d, b);
    assert [] + [d] == [d];
    RunsTwo(g, PingDone(t, false), Scan(t));
    AboutToLose(h, Reconnect(u, d, b), g, [PingDone(t, false), Scan(t)], t, d, b);
  }
}
