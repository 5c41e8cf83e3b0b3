/** Whole runs of the build queue: every submitted job is in exactly one place, the queue is
    always in order, and a queued job of priority at most 10 cannot be passed over more often
    than its load, while one above 10 can starve for ever. */
module QueueRuns {
  import opened StableOrder
  import opened BuildQueueModel

  datatype Event =
    | Submit(request: Request, now: real)
    | Pop
    | Complete(id: string)
    | Fail(id: string, now: real)

  /** The queue together with what a bookkeeper would have written down. */
  datatype Sys = Sys(core: Core, clock: real, submitted: set<string>, completed: set<string>)

  const INIT := Sys(Core([], map[]), 0.0, {}, {})

  /** Request ids are never reused and the clock does not run backwards. */
  predicate Legal(s: Sys, e: Event) {
    match e
    case Submit(r, now) => r.requestId !in s.submitted && s.clock <= now
    case Fail(_, now) => s.clock <= now
    case _ => true
  }

  function Step(s: Sys, e: Event): Sys {
    match e
    case Submit(r, now) =>
      s.(core := Pushed(s.core, r, now), clock := now, submitted := s.submitted + {r.requestId})
    case Pop => s.(core := Popped(s.core))
    case Complete(id) =>
      s.(core := Completed(s.core, id),
         completed := if id in s.core.processing then s.completed + {id} else s.completed)
    case Fail(id, now) => s.(core := Failed(s.core, id, now), clock := now)
  }

  predicate LegalRun(s: Sys, es: seq<Event>)
    decreases es
  {
    es == [] || (Legal(s, es[0]) && LegalRun(Step(s, es[0]), es[1..]))
  }

  function Run(s: Sys, es: seq<Event>): Sys
    decreases es
  {
    if es == [] then s else Run(Step(s, es[0]), es[1..])
  }

  // ---------------------------------------------------------------- conservation and order

  ghost function IdsOf(q: seq<Job>): set<string> { set i | 0 <= i < |q| :: q[i].req.requestId }

  ghost function Queued(s: Sys): set<string> { IdsOf(s.core.queue) }

  /** Each submitted job is in exactly one of queue, processing and completed; the queue is in
      order without repeats; keys are current and not in the future. */
  ghost predicate Inv(s: Sys) {
    var q := s.core.queue;
    && Sorted(q)
    && DistinctIds(q) && CurrentKeys(q, s.clock)
    && (forall id :: id in s.core.processing ==> s.core.processing[id].requestId == id)
    && s.submitted == Queued(s) + s.core.processing.Keys + s.completed
    && Queued(s) !! s.core.processing.Keys !! s.completed
  }

  ghost predicate DistinctIds(q: seq<Job>) {
    forall i, j :: 0 <= i < j < |q| ==> q[i].req.requestId != q[j].req.requestId
  }

  /** `r` is `q` with `e` put in at `n`. */
  ghost predicate Spliced(q: seq<Job>, e: Job, n: nat, r: seq<Job>) {
    && n <= |q| && |r| == |q| + 1
    && forall i {:trigger r[i]} :: 0 <= i < |r| ==> r[i] == (if i < n then q[i] else if i == n then e else q[i - 1])
  }

  lemma SpliceIsSpliced(q: seq<Job>, e: Job, n: nat, r: seq<Job>)
    requires n <= |q| && r == q[..n] + [e] + q[n..]
    ensures Spliced(q, e, n, r)
  {}

  lemma PushSplices(q: seq<Job>, e: Job, r: seq<Job>)
    requires Sorted(q) && r == StableSort(q + [e])
    ensures Sorted(r) && r == q[..InsertPos(q, e)] + [e] + q[InsertPos(q, e)..]
    ensures Spliced(q, e, InsertPos(q, e), r)
  {
    SortSorts(q + [e]);
    AppendThenSort(q, e);
    SpliceIsSpliced(q, e, InsertPos(q, e), r);
  }

  lemma SplicedDistinct(q: seq<Job>, e: Job, n: nat, r: seq<Job>)
    requires Spliced(q, e, n, r) && DistinctIds(q)
    requires forall i :: 0 <= i < |q| ==> q[i].req.requestId != e.req.requestId
    ensures DistinctIds(r)
  {}

  lemma SplicedIdSet(q: seq<Job>, e: Job, n: nat, r: seq<Job>)
    requires Spliced(q, e, n, r)
    ensures IdsOf(r) == IdsOf(q) + {e.req.requestId}
  {
    forall x | x in IdsOf(q) ensures x in IdsOf(r) {
      var i :| 0 <= i < |q| && q[i].req.requestId == x;
      assert r[if i < n then i else i + 1] == q[i];
    }
    assert r[n] == e;
  }

  lemma SplicedIds(q: seq<Job>, e: Job, n: nat, r: seq<Job>)
    requires Spliced(q, e, n, r) && DistinctIds(q) && e.req.requestId !in IdsOf(q)
    ensures DistinctIds(r)
    ensures IdsOf(r) == IdsOf(q) + {e.req.requestId}
  {
    forall i | 0 <= i < |q| ensures q[i].req.requestId != e.req.requestId {
      assert q[i].req.requestId in IdsOf(q);
    }
    SplicedDistinct(q, e, n, r);
    SplicedIdSet(q, e, n, r);
  }

  ghost predicate CurrentKeys(q: seq<Job>, clock: real) {
    forall i :: 0 <= i < |q| ==> q[i].prio == q[i].req.priority && q[i].time <= clock
  }

  lemma SplicedKeys(q: seq<Job>, e: Job, n: nat, r: seq<Job>, clock: real)
    requires Spliced(q, e, n, r)
    requires CurrentKeys(q, clock) && e.prio == e.req.priority && e.time <= clock
    ensures CurrentKeys(r, clock)
  {}

  lemma PushedQueue(q: seq<Job>, e: Job, r: seq<Job>, clock: real)
    requires Sorted(q) && DistinctIds(q) && CurrentKeys(q, clock)
    requires e.req.requestId !in IdsOf(q) && e.prio == e.req.priority && e.time <= clock
    requires r == StableSort(q + [e])
    ensures Sorted(r) && DistinctIds(r) && CurrentKeys(r, clock)
    ensures IdsOf(r) == IdsOf(q) + {e.req.requestId}
  {
    var n := InsertPos(q, e);
    PushSplices(q, e, r);
    SplicedIds(q, e, n, r);
    SplicedKeys(q, e, n, r, clock);
  }

  lemma PushKeepsInv(s: Sys, r: Request, now: real, s': Sys)
    requires Inv(s) && s.clock <= now
    requires r.requestId !in Queued(s) && r.requestId !in s.core.processing && r.requestId !in s.completed
    requires s' == s.(core := Pushed(s.core, r, now), clock := now, submitted := s.submitted + {r.requestId})
    ensures Inv(s')
  {
    assert CurrentKeys(s.core.queue, now);
    PushedQueue(s.core.queue, Entry(r.priority, now, r), s'.core.queue, now);
  }

  lemma PopKeepsInv(s: Sys)
    requires Inv(s)
    ensures Inv(Step(s, Pop))
  {
    var q, s' := s.core.queue, Step(s, Pop);
    if q != [] {
      var q' := s'.core.queue;
      assert forall i :: 0 <= i < |q'| ==> q'[i] == q[i + 1];
      assert Queued(s) == Queued(s') + {q[0].req.requestId} by {
        forall i | 0 <= i < |q| ensures q[i].req.requestId in Queued(s') + {q[0].req.requestId} {
          if i > 0 { assert q[i] == q'[i - 1]; }
        }
        assert q[0].req.requestId in Queued(s);
        forall i | 0 <= i < |q'| ensures q'[i].req.requestId in Queued(s) {
          assert q'[i] == q[i + 1];
        }
      }
    }
  }

  lemma StepKeepsInv(s: Sys, e: Event)
    requires Inv(s) && Legal(s, e)
    ensures Inv(Step(s, e))
  {
    match e
    case Submit(r, now) => PushKeepsInv(s, r, now, Step(s, e));
    case Pop => PopKeepsInv(s);
    case Complete(id) => CompleteKeepsInv(s, id);
    case Fail(id, now) =>
      if id in s.core.processing {
        var out := s.(core := Completed(s.core, id), submitted := s.submitted - {id});
        WithoutKeepsInv(s, id, out);
        PushKeepsInv(out, Demoted(s.core.processing[id]), now, Step(s, e));
      }
  }

  lemma CompleteKeepsInv(s: Sys, id: string)
    requires Inv(s)
    ensures Inv(Step(s, Complete(id)))
  {
    assert Queued(Step(s, Complete(id))) == Queued(s);
  }

  /** Conservation and order hold after every legal run. */
  lemma {:induction false} RunKeepsInv(s: Sys, es: seq<Event>)
    requires Inv(s) && LegalRun(s, es)
    ensures Inv(Run(s, es))
    decreases es
  {
    if es != [] {
      StepKeepsInv(s, es[0]);
      RunKeepsInv(Step(s, es[0]), es[1..]);
    }
  }

  /** From the empty queue: where every submitted job is, counted without overlap. */
  lemma JobsConserved(es: seq<Event>)
    requires LegalRun(INIT, es)
    ensures var s := Run(INIT, es);
            && Sorted(s.core.queue)
            && s.submitted == Queued(s) + s.core.processing.Keys + s.completed
            && |s.submitted| == |s.core.queue| + |s.core.processing| + |s.completed|
  {
    RunKeepsInv(INIT, es);
    var s := Run(INIT, es);
    QueuedSize(s.core.queue);
    assert |s.core.processing| == |s.core.processing.Keys|;
  }

  lemma {:induction false} QueuedSize(q: seq<Job>)
    requires DistinctIds(q)
    ensures |IdsOf(q)| == |q|
  {
    if q == [] {
      assert IdsOf(q) == {};
    } else {
      var f, l := q[..|q| - 1], q[|q| - 1];
      QueuedSize(f);
      assert IdsOf(q) == IdsOf(f) + {l.req.requestId} by {
        assert forall i :: 0 <= i < |f| ==> f[i] == q[i];
      }
    }
  }

  // ---------------------------------------------------------------- starvation

  /** How often an entry of priority `k` can still be popped while it is ahead of a job of
      priority `p`, if every one of its builds fails. */
  function Turns(p: int, k: int): nat { if k < p then p - k else 1 }

  /** The same for a request that is being processed now. */
  function TurnsAfterReturn(p: int, k: int): nat { if k + 1 < p then p - k - 1 else 0 }

  function QueueLoad(p: int, q: seq<Job>): nat {
    if q == [] then 0 else QueueLoad(p, q[..|q| - 1]) + Turns(p, q[|q| - 1].prio)
  }

  ghost function TableLoad(p: int, m: map<string, Request>): nat
    decreases m.Keys
  {
    if m == map[] then 0
    else
      var id :| id in m;
      assert (m - {id}).Keys == m.Keys - {id};
      TurnsAfterReturn(p, m[id].priority) + TableLoad(p, m - {id})
  }

  /** The load ahead of the job at position `j`. */
  ghost function Load(c: Core, j: nat): nat
    requires j < |c.queue|
  {
    var p := c.queue[j].prio;
    QueueLoad(p, c.queue[..j]) + TableLoad(p, c.processing)
  }

  /** What a submission adds to the load of a job of priority `p`. */
  function Surcharge(p: int, e: Event): nat {
    if e.Submit? && e.request.priority < p then p - e.request.priority else 0
  }

  function Surcharges(p: int, es: seq<Event>): nat {
    if es == [] then 0 else Surcharge(p, es[0]) + Surcharges(p, es[1..])
  }

  predicate NoSubmissions(es: seq<Event>) { forall e :: e in es ==> !e.Submit? }

  function Pops(es: seq<Event>): nat {
    if es == [] then 0 else (if es[0].Pop? then 1 else 0) + Pops(es[1..])
  }

  /** The run hands out `id` at some point. */
  predicate HandsOut(s: Sys, es: seq<Event>, id: string)
    decreases es
  {
    es != [] && ((es[0].Pop? && s.core.queue != [] && s.core.queue[0].req.requestId == id)
                 || HandsOut(Step(s, es[0]), es[1..], id))
  }

  lemma {:induction false} TableLoadWithout(p: int, m: map<string, Request>, id: string)
    requires id in m
    ensures TableLoad(p, m) == TurnsAfterReturn(p, m[id].priority) + TableLoad(p, m - {id})
    decreases m.Keys
  {
    var x :| x in m && TableLoad(p, m) == TurnsAfterReturn(p, m[x].priority) + TableLoad(p, m - {x});
    if x != id {
      assert (m - {x}).Keys == m.Keys - {x} && (m - {id}).Keys == m.Keys - {id};
      TableLoadWithout(p, m - {x}, id);
      TableLoadWithout(p, m - {id}, x);
      assert m - {x} - {id} == m - {id} - {x};
    }
  }

  lemma {:induction false} QueueLoadJoin(p: int, a: seq<Job>, b: seq<Job>)
    ensures QueueLoad(p, a + b) == QueueLoad(p, a) + QueueLoad(p, b)
  {
    if b == [] {
      assert a + b == a;
    } else {
      QueueLoadJoin(p, a, b[..|b| - 1]);
      assert (a + b)[..|a + b| - 1] == a + b[..|b| - 1];
    }
  }

  lemma LoadAhead(p: int, q: seq<Job>, e: Job, n: nat, r: seq<Job>, j: nat)
    requires n <= j < |q| && r == q[..n] + [e] + q[n..]
    ensures r[j + 1] == q[j]
    ensures QueueLoad(p, r[..j + 1]) == QueueLoad(p, q[..j]) + Turns(p, e.prio)
  {
    assert q[..j] == q[..n] + q[n..j];
    assert r[..j + 1] == q[..n] + ([e] + q[n..j]);
    QueueLoadJoin(p, q[..n], q[n..j]);
    QueueLoadJoin(p, q[..n], [e] + q[n..j]);
    QueueLoadJoin(p, [e], q[n..j]);
    assert [e][..0] == [];
  }

  lemma LoadBehind(q: seq<Job>, e: Job, n: nat, r: seq<Job>, j: nat)
    requires j < n <= |q| && r == q[..n] + [e] + q[n..]
    ensures r[j] == q[j] && r[..j] == q[..j]
  {}

  /** A push with a better priority than the job goes ahead of it and adds its turns; any
      other push, being later, goes behind it. */
  lemma PushLoad(s: Sys, r: Request, now: real, j: nat, c: Core) returns (j': nat)
    requires Inv(s) && s.clock <= now && j < |s.core.queue|
    requires c == Pushed(s.core, r, now)
    ensures j' < |c.queue| && c.queue[j'] == s.core.queue[j]
    ensures j' == (if r.priority < s.core.queue[j].prio then j + 1 else j)
    ensures Load(c, j') == Load(s.core, j) +
              if r.priority < s.core.queue[j].prio then s.core.queue[j].prio - r.priority else 0
  {
    var q, e := s.core.queue, Entry(r.priority, now, r);
    var n := InsertPos(q, e);
    PushSplices(q, e, c.queue);
    InsertPosBehind(q, e, j);
    if r.priority < q[j].prio {
      j' := j + 1;
      LoadAhead(q[j].prio, q, e, n, c.queue, j);
    } else {
      j' := j;
      LoadBehind(q, e, n, c.queue, j);
    }
  }

  lemma PopLoad(s: Sys, j: nat, c: Core)
    requires Inv(s) && 0 < j < |s.core.queue| && c == Popped(s.core)
    requires s.core.queue[j].prio <= 10
    ensures c.queue[j - 1] == s.core.queue[j] && Load(c, j - 1) + 1 == Load(s.core, j)
  {
    var q, p := s.core.queue, s.core.queue[j].prio;
    var h := q[0];
    assert KeyLeq(h, q[j]);
    assert h.req.requestId in Queued(s);
    assert q[..j] == [h] + q[1..j];
    assert c.queue[..j - 1] == q[1..j];
    QueueLoadJoin(p, [h], q[1..j]);
    assert [h][..0] == [];
    TableLoadWithout(p, c.processing, h.req.requestId);
    assert c.processing - {h.req.requestId} == s.core.processing;
  }

  lemma CompleteLoad(s: Sys, id: string, j: nat)
    requires Inv(s) && j < |s.core.queue|
    ensures Load(Completed(s.core, id), j) <= Load(s.core, j)
  {
    if id in s.core.processing {
      TableLoadWithout(s.core.queue[j].prio, s.core.processing, id);
    } else {
      assert s.core.processing - {id} == s.core.processing;
    }
  }

  /** Without a request it is building, the scheduler is in order all the same. */
  lemma WithoutKeepsInv(s: Sys, id: string, out: Sys)
    requires Inv(s) && id in s.core.processing
    requires out == s.(core := Completed(s.core, id), submitted := s.submitted - {id})
    ensures Inv(out)
  {
    assert Queued(out) == Queued(s);
  }

  lemma FailLoad(s: Sys, id: string, now: real, j: nat, c: Core) returns (j': nat)
    requires Inv(s) && j < |s.core.queue| && s.clock <= now && id in s.core.processing
    requires c == Failed(s.core, id, now) && s.core.queue[j].prio <= 10
    ensures j' < |c.queue| && c.queue[j'] == s.core.queue[j] && Load(c, j') == Load(s.core, j)
  {
    TableLoadWithout(s.core.queue[j].prio, s.core.processing, id);
    var out := s.(core := Completed(s.core, id), submitted := s.submitted - {id});
    WithoutKeepsInv(s, id, out);
    j' := PushLoad(out, Demoted(s.core.processing[id]), now, j, c);
  }

  /** One step changes the load of a waiting job by exactly: minus one for a pop, plus the
      surcharge for a submission, nothing for a failure, and never up for a completion. */
  lemma StepLoad(s: Sys, e: Event, j: nat) returns (j': nat)
    requires Inv(s) && Legal(s, e) && j < |s.core.queue|
    requires s.core.queue[j].prio <= 10
    requires e.Pop? ==> j > 0
    ensures var c := Step(s, e).core;
            && j' < |c.queue| && c.queue[j'] == s.core.queue[j]
            && Load(c, j') + (if e.Pop? then 1 else 0) <= Load(s.core, j) + Surcharge(s.core.queue[j].prio, e)
            && (e.Complete? || Load(c, j') + (if e.Pop? then 1 else 0) ==
                               Load(s.core, j) + Surcharge(s.core.queue[j].prio, e))
  {
    j' := j;
    match e
    case Submit(r, now) => j' := PushLoad(s, r, now, j, Step(s, e).core);
    case Pop =>
      j' := j - 1;
      PopLoad(s, j, Step(s, e).core);
    case Complete(id) => CompleteLoad(s, id, j);
    case Fail(id, now) =>
      if id in s.core.processing {
        j' := FailLoad(s, id, now, j, Step(s, e).core);
      }
  }

  /** No starvation: a queued job of priority at most 10 is handed out by the time the run has
      popped more often than its load plus the surcharges, whatever completes and fails
      happen in between and whatever the priorities of the others. */
  lemma {:induction false} NoStarvation(s: Sys, es: seq<Event>, j: nat)
    requires Inv(s) && LegalRun(s, es) && j < |s.core.queue|
    requires s.core.queue[j].prio <= 10
    requires Pops(es) > Load(s.core, j) + Surcharges(s.core.queue[j].prio, es)
    ensures HandsOut(s, es, s.core.queue[j].req.requestId)
    decreases es
  {
    if es[0].Pop? && j == 0 {
    } else {
      var j' := StepLoad(s, es[0], j);
      StepKeepsInv(s, es[0]);
      NoStarvation(Step(s, es[0]), es[1..], j');
    }
  }

  /** Once submissions have stopped and nothing is being processed, the bound is one more than
      the turns of the entries ahead. */
  lemma NoStarvationWhenQuiet(s: Sys, es: seq<Event>, j: nat)
    requires Inv(s) && LegalRun(s, es) && j < |s.core.queue|
    requires s.core.queue[j].prio <= 10
    requires s.core.processing == map[]
    requires NoSubmissions(es)
    requires Pops(es) >= 1 + QueueLoad(s.core.queue[j].prio, s.core.queue[..j])
    ensures HandsOut(s, es, s.core.queue[j].req.requestId)
  {
    NoSurcharges(s.core.queue[j].prio, es);
    NoStarvation(s, es, j);
  }

  lemma {:induction false} NoSurcharges(p: int, es: seq<Event>)
    requires NoSubmissions(es)
    ensures Surcharges(p, es) == 0
  {
    if es != [] { NoSurcharges(p, es[1..]); }
  }

  /** Pops the head and fails it. */
  function PopAndFail(s: Sys): seq<Event>
    requires s.core.queue != []
  {
    [Pop, Fail(s.core.queue[0].req.requestId, s.clock)]
  }

  lemma PopAndFailRun(s: Sys, id: string, rest: seq<Event>)
    requires s.core.queue != []
    ensures var s' := Run(s, PopAndFail(s));
            && LegalRun(s, PopAndFail(s))
            && Run(s, PopAndFail(s) + rest) == Run(s', rest)
            && (LegalRun(s, PopAndFail(s) + rest) <==> LegalRun(s', rest))
            && (HandsOut(s, PopAndFail(s) + rest, id) <==>
                  s.core.queue[0].req.requestId == id || HandsOut(s', rest, id))
            && Pops(PopAndFail(s) + rest) == 1 + Pops(rest)
            && s' == Step(Step(s, Pop), PopAndFail(s)[1])
  {
    var es := PopAndFail(s);
    var all := es + rest;
    assert all[0] == Pop && all[1] == es[1];
    assert all[1..][0] == es[1] && all[1..][1..] == rest && es[1..] == [es[1]] && es[1..][1..] == [];
    var m := Step(s, Pop);
    assert Run(s, all) == Run(m, all[1..]) == Run(Step(m, es[1]), rest);
    assert Run(s, es) == Run(m, es[1..]) == Run(Step(m, es[1]), []);
  }

  /** The bound is tight: some run spends the whole load without reaching the job. */
  lemma {:induction false} BoundIsTight(s: Sys, j: nat) returns (es: seq<Event>)
    requires Inv(s) && j < |s.core.queue|
    requires s.core.queue[j].prio <= 10
    requires s.core.processing == map[]
    ensures LegalRun(s, es) && NoSubmissions(es)
    ensures Pops(es) == Load(s.core, j)
    ensures !HandsOut(s, es, s.core.queue[j].req.requestId)
    decreases Load(s.core, j)
  {
    if j == 0 {
      assert s.core.queue[..0] == [];
      return [];
    }
    var two := PopAndFail(s);
    var head := s.core.queue[0];
    var m := Step(s, Pop);
    var j1 := StepLoad(s, Pop, j);
    StepKeepsInv(s, Pop);
    var j2 := StepLoad(m, two[1], j1);
    StepKeepsInv(m, two[1]);
    PopAndFailRun(s, s.core.queue[j].req.requestId, []);
    var s' := Run(s, two);
    assert s' == Step(m, two[1]);
    assert m.core.processing == map[head.req.requestId := head.req];
    assert s'.core.processing == map[];
    var rest := BoundIsTight(s', j2);
    PopAndFailRun(s, s.core.queue[j].req.requestId, rest);
    es := two + rest;
  }

  /** Above priority 10 the bound fails without limit: with any entry ahead, a run of pops and
      failures passes the job over as often as one likes. */
  lemma {:induction false} LowPriorityStarves(s: Sys, j: nat, n: nat) returns (es: seq<Event>)
    requires Inv(s) && 0 < j < |s.core.queue|
    requires s.core.queue[j].prio > 10
    ensures LegalRun(s, es) && Pops(es) == n && NoSubmissions(es)
    ensures !HandsOut(s, es, s.core.queue[j].req.requestId)
    decreases n
  {
    if n == 0 {
      return [];
    }
    var q, two, m := s.core.queue, PopAndFail(s), Step(s, Pop);
    var id := q[0].req.requestId;
    StepKeepsInv(s, Pop);
    assert m.core.queue[j - 1] == q[j];
    assert id in m.core.processing;
    var out := m.(core := Completed(m.core, id), submitted := m.submitted - {id});
    WithoutKeepsInv(m, id, out);
    var j' := PushLoad(out, Demoted(m.core.processing[id]), m.clock, j - 1, Step(m, two[1]).core);
    StepKeepsInv(m, two[1]);
    PopAndFailRun(s, q[j].req.requestId, []);
    var s' := Run(s, two);
    var rest := LowPriorityStarves(s', j, n - 1);
    PopAndFailRun(s, q[j].req.requestId, rest);
    es := two + rest;
  }

  /** Without submissions, no legal run pops more than `b` times before reaching the job. */
  ghost predicate WaitsAtMost(s: Sys, j: nat, b: nat)
    requires j < |s.core.queue|
  {
    forall es :: LegalRun(s, es) && NoSubmissions(es) && Pops(es) > b
      ==> HandsOut(s, es, s.core.queue[j].req.requestId)
  }

  /** At the head with nothing being processed, the next pop hands the job out, whatever its priority. */
  lemma {:induction false} QuietHeadIsNext(s: Sys, es: seq<Event>)
    requires s.core.queue != [] && s.core.processing == map[]
    requires LegalRun(s, es) && NoSubmissions(es) && Pops(es) > 0
    ensures HandsOut(s, es, s.core.queue[0].req.requestId)
    decreases es
  {
    if !es[0].Pop? {
      assert es[0] in es;
      assert Step(s, es[0]).core == s.core;
      QuietHeadIsNext(Step(s, es[0]), es[1..]);
    }
  }

  /** Failing a request that is being processed puts it ahead of any job of priority above 10. */
  lemma FailedGoesAhead(s: Sys, id: string) returns (j': nat)
    requires Inv(s) && s.core.queue != [] && id in s.core.processing
    requires s.core.queue[0].prio > 10
    ensures var s' := Step(s, Fail(id, s.clock));
            Inv(s') && 0 < j' < |s'.core.queue| && s'.core.queue[j'] == s.core.queue[0]
  {
    var out := s.(core := Completed(s.core, id), submitted := s.submitted - {id});
    WithoutKeepsInv(s, id, out);
    StepKeepsInv(s, Fail(id, s.clock));
    j' := PushLoad(out, Demoted(s.core.processing[id]), s.clock, 0, Step(s, Fail(id, s.clock)).core);
  }

  /** Above priority 10 a job starves with anything ahead of it or, at the head, with anything
      being processed that can fail. */
  lemma JobStarves(s: Sys, j: nat, n: nat) returns (es: seq<Event>)
    requires Inv(s) && j < |s.core.queue| && s.core.queue[j].prio > 10
    requires j > 0 || s.core.processing != map[]
    ensures LegalRun(s, es) && Pops(es) == n && NoSubmissions(es)
    ensures !HandsOut(s, es, s.core.queue[j].req.requestId)
  {
    if j > 0 {
      es := LowPriorityStarves(s, j, n);
    } else {
      var id :| id in s.core.processing;
      var j' := FailedGoesAhead(s, id);
      var fail := Fail(id, s.clock);
      var rest := LowPriorityStarves(Step(s, fail), j', n);
      es := [fail] + rest;
      assert es[1..] == rest;
    }
  }

  /** A job waits a bounded number of pops exactly when its own priority is within the documented
      range, or it is at the head and nothing is being processed. */
  lemma WaitIsBoundedIff(s: Sys, j: nat)
    requires Inv(s) && j < |s.core.queue|
    ensures (exists b: nat :: WaitsAtMost(s, j, b)) <==>
              s.core.queue[j].prio <= 10 || (j == 0 && s.core.processing == map[])
  {
    if s.core.queue[j].prio <= 10 {
      var b := Load(s.core, j);
      forall es | LegalRun(s, es) && NoSubmissions(es) && Pops(es) > b
        ensures HandsOut(s, es, s.core.queue[j].req.requestId)
      {
        NoSurcharges(s.core.queue[j].prio, es);
        NoStarvation(s, es, j);
      }
      assert WaitsAtMost(s, j, b);
    } else if j == 0 && s.core.processing == map[] {
      forall es | LegalRun(s, es) && NoSubmissions(es) && Pops(es) > 0
        ensures HandsOut(s, es, s.core.queue[j].req.requestId)
      {
        QuietHeadIsNext(s, es);
      }
      assert WaitsAtMost(s, j, 0);
    } else {
      forall b: nat ensures !WaitsAtMost(s, j, b) {
        var es := JobStarves(s, j, b + 1);
      }
    }
  }
}
