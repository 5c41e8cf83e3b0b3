/** Broadcasts and heartbeat sweeps go round a list of devices, giving way at every await. Whatever
    happens meanwhile, they get round to every device on the list. */
module HubRounds {
  import opened ConnectionHub
  import opened HubRemovals
  import opened HubSweeps

  // ---------------------------------------------------------------- broadcasts

  /** Sending to a list of devices begins on the connection of the first that has one, with the devices
      after it still to come, and is over if none has. */
  lemma {:induction false} SendNextFindsFirst(h: Hub, t: Task, devs: seq<Dev>) returns (k: nat)
    ensures k <= |devs| && forall i :: 0 <= i < k ==> devs[i] !in h.conns
    ensures k < |devs| ==> devs[k] in h.conns &&
                           SendNext(h, t, devs) == Goto(h, t, Sending(devs[k], h.conns[devs[k]], devs[k + 1..]))
    ensures k == |devs| ==> SendNext(h, t, devs) == Exit(h, t)
    decreases devs
  {
    if devs == [] || devs[0] in h.conns {
      k := 0;
    } else {
      var j := SendNextFindsFirst(h, t, devs[1..]);
      k := j + 1;
      assert devs[1..][j..] == devs[k..];
      if k < |devs| { assert devs[1..][j + 1..] == devs[k + 1..]; }
    }
  }

  /** The task has still to send to the device. */
  predicate StillToSend(h: Hub, t: Task, d: Dev) {
    t in h.tasks &&
    match h.tasks[t]
    case Sending(dev, _, rest) => d == dev || d in rest
    case WantDrop(_, SendRest(rest)) => d in rest
    case Closing(_, SendRest(rest)) => d in rest
    case _ => false
  }

  predicate SendsTo(h: Hub, t: Task, d: Dev) {
    t in h.tasks && h.tasks[t].Sending? && h.tasks[t].dev == d
  }

  /** During the run the task sends to the device, or finds at a step of its own that it has no connection. */
  predicate GetsRoundTo(h: Hub, steps: seq<Step>, t: Task, d: Dev)
    requires Runs(h, steps)
    decreases steps
  {
    SendsTo(h, t, d) ||
    (steps != [] && ((IsBy(steps[0], t) && d !in h.conns) || GetsRoundTo(Next(h, steps[0]), steps[1..], t, d)))
  }

  lemma SendNextGoesOn(h: Hub, t: Task, devs: seq<Dev>, d: Dev)
    requires d in devs && d in h.conns
    ensures StillToSend(SendNext(h, t, devs), t, d)
  {
    var k := SendNextFindsFirst(h, t, devs);
    var i :| 0 <= i < |devs| && devs[i] == d;
    if i > k { assert devs[k + 1..][i - k - 1] == d; }
  }

  lemma SendStepGoesOn(h: Hub, s: Step, t: Task, d: Dev)
    requires Enabled(h, s) && StillToSend(h, t, d) && !SendsTo(h, t, d) && IsBy(s, t) && d in h.conns
    requires !s.CancelConnect?
    ensures StillToSend(Next(h, s), t, d)
  {
    match s
    case SendDone(_, ok) => if ok { SendNextGoesOn(h, t, h.tasks[t].rest, d); }
    case Drop(_) => if h.tasks[t].dev !in h.conns { SendNextGoesOn(h, t, h.tasks[t].next.rest, d); }
    case CloseDone(_) => SendNextGoesOn(h.(lock := Free), t, h.tasks[t].next.rest, d);
  }

  lemma {:induction false} StillToSendIsServed(h: Hub, steps: seq<Step>, t: Task, d: Dev)
    requires Runs(h, steps) && StillToSend(h, t, d) && t !in Exec(h, steps).tasks
    ensures GetsRoundTo(h, steps, t, d)
    decreases steps
  {
    if !SendsTo(h, t, d) && !(IsBy(steps[0], t) && d !in h.conns) {
      if IsBy(steps[0], t) {
        SendStepGoesOn(h, steps[0], t, d);
      } else {
        OthersKeepTask(h, steps[0], t);
      }
      StillToSendIsServed(Next(h, steps[0]), steps[1..], t, d);
    }
  }

  /** A broadcast that ends has, for every device on its list, begun to send to it or found it without a
      connection, whatever connected, failed or was removed in between. */
  lemma BroadcastReachesAll(h: Hub, t: Task, devs: seq<Dev>, steps: seq<Step>, d: Dev)
    requires Enabled(h, StartSend(t, devs)) && d in devs
    requires Runs(h, [StartSend(t, devs)] + steps) && t !in Exec(h, [StartSend(t, devs)] + steps).tasks
    ensures GetsRoundTo(h, [StartSend(t, devs)] + steps, t, d)
  {
    var s := StartSend(t, devs);
    assert ([s] + steps)[1..] == steps;
    if d in h.conns {
      SendNextGoesOn(h, t, devs, d);
      StillToSendIsServed(Next(h, s), steps, t, d);
    }
  }

  // ---------------------------------------------------------------- sweeps

  /** The sweep has still to look at the device. */
  predicate StillToLookAt(h: Hub, t: Task, d: Dev) {
    t in h.tasks && (h.tasks[t].Scanning? || h.tasks[t].Pinging?) && d in h.tasks[t].todo
  }

  /** At some step of the run the sweep looks at the device. */
  predicate LooksIn(h: Hub, steps: seq<Step>, t: Task, d: Dev)
    requires Runs(h, steps)
    decreases steps
  {
    steps != [] &&
    ((steps[0] == Scan(t) && h.tasks[t].todo != [] && h.tasks[t].todo[0] == d) ||
     LooksIn(Next(h, steps[0]), steps[1..], t, d))
  }

  /** A heartbeat that went well changes nothing; one that failed lists the device and judges the
      connection it was sent to. Either way the sweep goes on with the devices that are left. */
  lemma PingOutcome(h: Hub, t: Task, ok: bool)
    requires Enabled(h, PingDone(t, ok))
    ensures var Pinging(d, a, at, todo, dead, judged) := h.tasks[t];
            Next(h, PingDone(t, ok)) == h.(tasks := h.tasks[t :=
              if ok then Scanning(at, todo, dead, judged) else Scanning(at, todo, dead + [d], judged + {a})])
  {}

  lemma LookGoesOn(h: Hub, s: Step, t: Task, d: Dev)
    requires Enabled(h, s) && StillToLookAt(h, t, d) && IsBy(s, t)
    requires s == Scan(t) ==> h.tasks[t].todo[0] != d
    ensures StillToLookAt(Next(h, s), t, d)
  {
    if s.PingDone? { PingOutcome(h, t, s.ok); }
  }

  lemma {:induction false} StillToLookAtIsLookedAt(h: Hub, steps: seq<Step>, t: Task, d: Dev)
    requires Runs(h, steps) && StillToLookAt(h, t, d) && t !in Exec(h, steps).tasks
    ensures LooksIn(h, steps, t, d)
    decreases steps
  {
    if !(steps[0] == Scan(t) && h.tasks[t].todo[0] == d) {
      if IsBy(steps[0], t) {
        LookGoesOn(h, steps[0], t, d);
      } else {
        OthersKeepTask(h, steps[0], t);
      }
      StillToLookAtIsLookedAt(Next(h, steps[0]), steps[1..], t, d);
    }
  }

  /** A sweep that ends has looked at every device there was when it began. */
  lemma SweepLooksAtAll(h: Hub, t: Task, at: Clock, devs: seq<Dev>, steps: seq<Step>, d: Dev)
    requires Enabled(h, StartSweep(t, at, devs)) && d in devs
    requires Runs(h, [StartSweep(t, at, devs)] + steps) && t !in Exec(h, [StartSweep(t, at, devs)] + steps).tasks
    ensures LooksIn(h, [StartSweep(t, at, devs)] + steps, t, d)
  {
    var s := StartSweep(t, at, devs);
    assert ([s] + steps)[1..] == steps;
    StillToLookAtIsLookedAt(Next(h, s), steps, t, d);
  }
}
