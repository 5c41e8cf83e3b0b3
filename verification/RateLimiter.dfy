/** The sliding-window limiter of server/auth/rate_limiter.py. The object keeps a pruned list of
    accept times per client; the lemmas relate it to the full log of accepts, which it does
    not keep. */
module RateLimiterModel {

  datatype Limit = Limit(requests: int, window: real)

  /** The entries later than `start`, in order. */
  function After(ts: seq<real>, start: real): seq<real> {
    if ts == [] then []
    else
      var front, last := ts[..|ts| - 1], ts[|ts| - 1];
      if last > start then After(front, start) + [last] else After(front, start)
  }

  function Accepts(ts: seq<real>, limit: Limit, now: real): bool {
    |After(ts, now - limit.window)| < limit.requests
  }

  function AfterCheck(ts: seq<real>, limit: Limit, now: real): seq<real> {
    if Accepts(ts, limit, now) then After(ts, now - limit.window) + [now] else After(ts, now - limit.window)
  }

  type Windows = map<string, seq<real>>

  /** What the object answers to a check, and its map afterwards. */
  predicate Answer(windows: Windows, key: string, limit: Limit, now: real) {
    Accepts(if key in windows then windows[key] else [], limit, now)
  }

  function Checked(windows: Windows, key: string, limit: Limit, now: real): Windows {
    windows[key := AfterCheck(if key in windows then windows[key] else [], limit, now)]
  }

  class RateLimiter {
    var windows: Windows

    constructor ()
      ensures windows == map[]
    {
      windows := map[];
    }

    method Check(key: string, limit: Limit, now: real) returns (ok: bool)
      modifies this
      ensures ok == Answer(old(windows), key, limit, now) && windows == Checked(old(windows), key, limit, now)
    {
      var windowStart := now - limit.window;
      windows := windows[key := After(if key in windows then windows[key] else [], windowStart)];
      if |windows[key]| >= limit.requests {
        return false;
      }
      windows := windows[key := windows[key] + [now]];
      return true;
    }

    method Remaining(key: string, limit: Limit, now: real) returns (n: nat)
      ensures var current := |After(if key in windows then windows[key] else [], now - limit.window)|;
              (n > 0 <==> current < limit.requests) && (n > 0 ==> n + current == limit.requests)
    {
      var ts := if key in windows then windows[key] else [];
      var current := 0;
      for i := 0 to |ts|
        invariant current == |After(ts[..i], now - limit.window)|
      {
        assert ts[..i + 1][..i] == ts[..i];
        if ts[i] > now - limit.window {
          current := current + 1;
        }
      }
      assert ts[..|ts|] == ts;
      n := if limit.requests - current > 0 then limit.requests - current else 0;
    }
  }

  // ---------------------------------------------------------------- runs of one client

  datatype Query = Query(limit: Limit, now: real)

  /** The pruned list, and what is only remembered here: every accept with the limit it was
      made under, the last instant, and the latest window start pruned to. */
  datatype State = State(kept: seq<real>, log: seq<Query>, clock: real, horizon: Cut)

  /** Where the list has been pruned to, if it ever was. */
  datatype Cut = NoCut | CutAt(t: real)

  function Move(c: Cut, t: real): Cut { if c.CutAt? && c.t >= t then c else CutAt(t) }

  function AfterCut(ts: seq<real>, c: Cut): seq<real> { if c.NoCut? then ts else After(ts, c.t) }

  function Times(log: seq<Query>): seq<real> {
    if log == [] then [] else Times(log[..|log| - 1]) + [log[|log| - 1].now]
  }

  function Init(start: real): State { State([], [], start, NoCut) }

  function Step(s: State, q: Query): State {
    State(AfterCheck(s.kept, q.limit, q.now),
          if Accepts(s.kept, q.limit, q.now) then s.log + [q] else s.log,
          q.now, Move(s.horizon, q.now - q.limit.window))
  }

  /** The clock does not run backwards and windows have a length. */
  predicate Legal(s: State, q: Query) { s.clock <= q.now && q.limit.window > 0.0 }

  predicate LegalRun(s: State, qs: seq<Query>)
    decreases qs
  {
    qs == [] || (Legal(s, qs[0]) && LegalRun(Step(s, qs[0]), qs[1..]))
  }

  function Run(s: State, qs: seq<Query>): State
    decreases qs
  {
    if qs == [] then s else Run(Step(s, qs[0]), qs[1..])
  }

  ghost predicate Ordered(log: seq<Query>, clock: real) {
    && (forall i, j :: 0 <= i < j < |log| ==> log[i].now <= log[j].now)
    && (forall i :: 0 <= i < |log| ==> log[i].now <= clock)
  }

  /** The pruned list is the log cut at the horizon, whatever windows were used. */
  ghost predicate Inv(s: State) {
    && s.kept == AfterCut(Times(s.log), s.horizon)
    && Ordered(s.log, s.clock) && (s.horizon.CutAt? ==> s.horizon.t < s.clock)
  }

  lemma {:induction false} AfterAfter(ts: seq<real>, a: real, b: real)
    ensures After(After(ts, a), b) == After(ts, if a < b then b else a)
  {
    if ts != [] {
      var front, last := ts[..|ts| - 1], ts[|ts| - 1];
      AfterAfter(front, a, b);
      if last > a {
        var r := After(front, a) + [last];
        assert r[..|r| - 1] == After(front, a);
      }
    }
  }

  /** Cutting what was cut is cutting at the later of the two. */
  lemma CutAgain(ts: seq<real>, c: Cut, from: real)
    ensures After(AfterCut(ts, c), from) == AfterCut(ts, Move(c, from))
  {
    if c.CutAt? { AfterAfter(ts, c.t, from); }
  }

  lemma OrderedSnoc(log: seq<Query>, clock: real, q: Query)
    requires Ordered(log, clock) && clock <= q.now
    ensures Ordered(log + [q], q.now) && Ordered(log, q.now)
  {}

  lemma TimesSnoc(log: seq<Query>, q: Query)
    ensures Times(log + [q]) == Times(log) + [q.now]
  {
    assert (log + [q])[..|log|] == log;
  }

  lemma CutSnoc(ts: seq<real>, t: real, c: Cut)
    requires c.CutAt? && c.t < t
    ensures AfterCut(ts + [t], c) == AfterCut(ts, c) + [t]
  {
    AfterSnoc(ts, t, c.t);
  }

  lemma LogSnoc(log: seq<Query>, q: Query, c: Cut)
    requires c.CutAt? && c.t < q.now
    ensures AfterCut(Times(log + [q]), c) == AfterCut(Times(log), c) + [q.now]
  {
    TimesSnoc(log, q);
    CutSnoc(Times(log), q.now, c);
  }

  /** A check leaves of the list what the new horizon leaves of the new log. */
  lemma RefusalCuts(ts: seq<real>, h: Cut, q: Query, kept: seq<real>, c: Cut)
    requires kept == AfterCut(ts, h) && c == Move(h, q.now - q.limit.window)
    requires !Accepts(kept, q.limit, q.now)
    ensures AfterCheck(kept, q.limit, q.now) == AfterCut(ts, c)
  {
    CutAgain(ts, h, q.now - q.limit.window);
  }

  lemma AcceptCuts(ts: seq<real>, h: Cut, q: Query, kept: seq<real>, c: Cut)
    requires kept == AfterCut(ts, h) && c == Move(h, q.now - q.limit.window)
    requires Accepts(kept, q.limit, q.now)
    ensures AfterCheck(kept, q.limit, q.now) == AfterCut(ts, c) + [q.now]
  {
    CutAgain(ts, h, q.now - q.limit.window);
  }

  lemma HorizonStep(s: State, q: Query)
    requires Inv(s) && Legal(s, q)
    ensures Step(s, q).horizon.CutAt? && Step(s, q).horizon.t < q.now
  {}

  lemma KeptStep(s: State, q: Query, s': State)
    requires Inv(s) && Legal(s, q) && s' == Step(s, q)
    ensures s'.kept == AfterCut(Times(s'.log), s'.horizon)
  {
    HorizonStep(s, q);
    if Accepts(s.kept, q.limit, q.now) {
      AcceptCuts(Times(s.log), s.horizon, q, s.kept, s'.horizon);
      LogSnoc(s.log, q, s'.horizon);
    } else {
      RefusalCuts(Times(s.log), s.horizon, q, s.kept, s'.horizon);
    }
  }

  lemma OrderedStep(s: State, q: Query, s': State)
    requires Inv(s) && Legal(s, q) && s' == Step(s, q)
    ensures Ordered(s'.log, s'.clock)
  {
    OrderedSnoc(s.log, s.clock, q);
  }

  lemma StepKeepsInv(s: State, q: Query)
    requires Inv(s) && Legal(s, q)
    ensures Inv(Step(s, q))
  {
    var s' := Step(s, q);
    KeptStep(s, q, s');
    OrderedStep(s, q, s');
    assert s'.horizon == Move(s.horizon, q.now - q.limit.window) && s'.clock == q.now;
  }

  lemma AfterSnoc(ts: seq<real>, t: real, from: real)
    ensures After(ts + [t], from) == if t > from then After(ts, from) + [t] else After(ts, from)
  {
    assert (ts + [t])[..|ts|] == ts;
  }

  lemma {:induction false} RunKeepsInv(s: State, qs: seq<Query>)
    requires Inv(s) && LegalRun(s, qs)
    ensures Inv(Run(s, qs))
    decreases qs
  {
    if qs != [] {
      StepKeepsInv(s, qs[0]);
      RunKeepsInv(Step(s, qs[0]), qs[1..]);
    }
  }

  lemma FreshRunInv(start: real, qs: seq<Query>)
    requires LegalRun(Init(start), qs)
    ensures Inv(Run(Init(start), qs))
  {
    RunKeepsInv(Init(start), qs);
  }

  // ---------------------------------------------------------------- refinement

  /** The decision a limiter would take that had kept every accept. */
  predicate FullLogAccepts(log: seq<Query>, q: Query) {
    |After(Times(log), q.now - q.limit.window)| < q.limit.requests
  }

  /** Some query of the run pruned accepts as old as `t`. */
  ghost predicate Pruned(qs: seq<Query>, t: real) {
    exists i :: 0 <= i < |qs| && t <= qs[i].now - qs[i].limit.window
  }

  predicate Behind(c: Cut, t: real) { c.CutAt? && t <= c.t }

  /** The latest window start among the queries. */
  function Latest(c: Cut, qs: seq<Query>): Cut
    decreases qs
  {
    if qs == [] then c else Latest(Move(c, qs[0].now - qs[0].limit.window), qs[1..])
  }

  lemma {:induction false} HorizonIsLatest(s: State, qs: seq<Query>)
    ensures Run(s, qs).horizon == Latest(s.horizon, qs)
    decreases qs
  {
    if qs != [] {
      HorizonIsLatest(Step(s, qs[0]), qs[1..]);
    }
  }

  lemma PrunedFirst(qs: seq<Query>, t: real)
    requires qs != []
    ensures Pruned(qs, t) <==> t <= qs[0].now - qs[0].limit.window || Pruned(qs[1..], t)
  {
    if Pruned(qs, t) {
      var i :| 0 <= i < |qs| && t <= qs[i].now - qs[i].limit.window;
      assert i > 0 ==> qs[1..][i - 1] == qs[i];
    }
  }

  lemma {:induction false} LatestPrunes(c: Cut, qs: seq<Query>, t: real)
    ensures Behind(Latest(c, qs), t) <==> Behind(c, t) || Pruned(qs, t)
    decreases qs
  {
    if qs != [] {
      LatestPrunes(Move(c, qs[0].now - qs[0].limit.window), qs[1..], t);
      PrunedFirst(qs, t);
    }
  }

  /** How many accepts later than `from` the queries of the run have pruned. */
  ghost function Lost(log: seq<Query>, qs: seq<Query>, from: real): nat {
    if log == [] then 0
    else
      var last := log[|log| - 1].now;
      Lost(log[..|log| - 1], qs, from) + (if last > from && Pruned(qs, last) then 1 else 0)
  }

  lemma {:induction false} LostIsCut(log: seq<Query>, qs: seq<Query>, from: real)
    ensures |AfterCut(Times(log), Move(Latest(NoCut, qs), from))| + Lost(log, qs, from) == |After(Times(log), from)|
  {
    if log != [] {
      var front, last, c := log[..|log| - 1], log[|log| - 1].now, Latest(NoCut, qs);
      LostIsCut(front, qs, from);
      assert Times(log) == Times(front) + [last];
      AfterSnoc(Times(front), last, from);
      AfterSnoc(Times(front), last, Move(c, from).t);
      LatestPrunes(NoCut, qs, last);
    }
  }

  /** No accept later than `from` has been pruned. */
  ghost predicate NonePruned(log: seq<Query>, qs: seq<Query>, from: real) {
    forall i :: 0 <= i < |log| && log[i].now > from ==> !Pruned(qs, log[i].now)
  }

  lemma {:induction false} NoneLostIff(log: seq<Query>, qs: seq<Query>, from: real)
    ensures Lost(log, qs, from) == 0 <==> NonePruned(log, qs, from)
  {
    if log != [] {
      var front, last := log[..|log| - 1], log[|log| - 1].now;
      NoneLostIff(front, qs, from);
      assert NonePruned(log, qs, from) <==> NonePruned(front, qs, from) && !(last > from && Pruned(qs, last)) by {
        assert forall i :: 0 <= i < |front| ==> front[i] == log[i];
      }
    }
  }

  /** The list counts what the full log counts less what was pruned: all of it, if nothing was. */
  ghost predicate CountsLess(s: State, qs: seq<Query>, from: real) {
    && |After(s.kept, from)| == |After(Times(s.log), from)| - Lost(s.log, qs, from)
    && (|After(s.kept, from)| == |After(Times(s.log), from)| <==> NonePruned(s.log, qs, from))
  }

  lemma StateCountsLess(s: State, qs: seq<Query>, from: real)
    requires Inv(s) && s.horizon == Latest(NoCut, qs)
    ensures CountsLess(s, qs, from)
  {
    CutAgain(Times(s.log), s.horizon, from);
    LostIsCut(s.log, qs, from);
    NoneLostIff(s.log, qs, from);
  }

  /** For any mix of windows: the pruned list counts what the full log counts less the accepts that
      an earlier query of the run, with its own window, has pruned; it counts the same exactly when
      there are none in the window asked about. */
  lemma SameCountIff(start: real, qs: seq<Query>, q: Query)
    requires LegalRun(Init(start), qs)
    ensures CountsLess(Run(Init(start), qs), qs, q.now - q.limit.window)
  {
    FreshRunInv(start, qs);
    HorizonIsLatest(Init(start), qs);
    StateCountsLess(Run(Init(start), qs), qs, q.now - q.limit.window);
  }

  /** The decision differs from that of the full log exactly when enough accepts in the window have
      been pruned to bring its count from the limit or above to below it. */
  lemma SameDecisionIff(start: real, qs: seq<Query>, q: Query)
    requires LegalRun(Init(start), qs)
    ensures var s, from := Run(Init(start), qs), q.now - q.limit.window;
            var full := |After(Times(s.log), from)|;
            (Accepts(s.kept, q.limit, q.now) <==> FullLogAccepts(s.log, q)) <==>
              full < q.limit.requests || full - Lost(s.log, qs, from) >= q.limit.requests
  {
    SameCountIff(start, qs, q);
  }

  lemma {:induction false} TimesAt(log: seq<Query>)
    ensures |Times(log)| == |log| && forall i :: 0 <= i < |log| ==> Times(log)[i] == log[i].now
  {
    if log != [] { TimesAt(log[..|log| - 1]); }
  }

  /** No check of the run used a window shorter than `w`. */
  predicate WindowsAtLeast(qs: seq<Query>, w: real) {
    forall i :: 0 <= i < |qs| ==> qs[i].limit.window >= w
  }

  lemma {:induction false} HorizonBehind(s: State, qs: seq<Query>, w: real)
    requires LegalRun(s, qs) && WindowsAtLeast(qs, w)
    requires s.horizon.CutAt? ==> s.horizon.t <= s.clock - w
    ensures var r := Run(s, qs); s.clock <= r.clock && (r.horizon.CutAt? ==> r.horizon.t <= r.clock - w)
    decreases qs
  {
    if qs != [] {
      assert WindowsAtLeast(qs[1..], w);
      HorizonBehind(Step(s, qs[0]), qs[1..], w);
    }
  }

  /** Cut no later than `from`, the list holds every accept since. */
  lemma AllSinceKept(s: State, from: real)
    requires Inv(s) && (s.horizon.CutAt? ==> s.horizon.t <= from)
    ensures After(s.kept, from) == After(Times(s.log), from)
  {
    CutAgain(Times(s.log), s.horizon, from);
  }

  /** What the limiter, in that state, has in common with one that had kept every accept. */
  ghost predicate LikeFullLog(s: State, q: Query) {
    && |After(s.kept, q.now - q.limit.window)| == |After(Times(s.log), q.now - q.limit.window)|
    && (Accepts(s.kept, q.limit, q.now) <==> FullLogAccepts(s.log, q))
  }

  lemma BehindIsLikeFullLog(s: State, q: Query)
    requires Inv(s) && (s.horizon.CutAt? ==> s.horizon.t <= q.now - q.limit.window)
    ensures LikeFullLog(s, q)
  {
    AllSinceKept(s, q.now - q.limit.window);
  }

  /** Refinement: when no earlier check used a shorter window (in particular when all limits
      share one), the limiter counts, and so decides, as over the full log. */
  lemma RefinesFullLog(start: real, qs: seq<Query>, q: Query)
    requires LegalRun(Init(start), qs) && Legal(Run(Init(start), qs), q)
    requires WindowsAtLeast(qs, q.limit.window)
    ensures LikeFullLog(Run(Init(start), qs), q)
  {
    FreshRunInv(start, qs);
    HorizonBehind(Init(start), qs, q.limit.window);
    BehindIsLikeFullLog(Run(Init(start), qs), q);
  }

  lemma AfterOne(t: real, from: real)
    ensures After([t], from) == if t > from then [t] else []
  {
    AfterSnoc([], t, from);
    assert [] + [t] == [t];
  }

  lemma RunTwo(s: State, a: Query, b: Query)
    requires Legal(s, a) && Legal(Step(s, a), b)
    ensures LegalRun(s, [a, b]) && Run(s, [a, b]) == Step(Step(s, a), b)
  {
    assert [a, b][1..] == [b] && [b][1..] == [];
    assert LegalRun(Step(Step(s, a), b), []) && Run(Step(Step(s, a), b), []) == Step(Step(s, a), b);
    assert LegalRun(Step(s, a), [b]) && Run(Step(s, a), [b]) == Step(Step(s, a), b);
  }

  /** Mixing windows breaks it: a check under a one-second window forgets the accept that a
      later check under a one-minute window of one request should have seen. */
  lemma ShorterWindowForgets() returns (qs: seq<Query>, q: Query)
    ensures LegalRun(Init(0.0), qs) && Legal(Run(Init(0.0), qs), q)
    ensures Accepts(Run(Init(0.0), qs).kept, q.limit, q.now)
    ensures !FullLogAccepts(Run(Init(0.0), qs).log, q)
  {
    var minute, second := Limit(1, 60.0), Limit(0, 1.0);
    var a, b := Query(minute, 10.0), Query(second, 20.0);
    qs, q := [a, b], Query(minute, 30.0);
    var s1 := State([10.0], [a], 10.0, CutAt(-50.0));
    var s2 := State([], [a], 20.0, CutAt(19.0));
    AfterOne(10.0, 19.0);
    AfterOne(10.0, -30.0);
    TimesAt([a]);
    assert Times([a]) == [10.0];
    assert Step(Init(0.0), a) == s1;
    assert Step(s1, b) == s2;
    RunTwo(Init(0.0), a, b);
    assert Accepts(s2.kept, q.limit, q.now) && !FullLogAccepts(s2.log, q);
  }

  // ---------------------------------------------------------------- the bound

  /** The accepts less than `w` before an accept, and it, are no more than its limit. */
  ghost predicate Bounded(log: seq<Query>, w: real) {
    forall i, j :: 0 <= i <= j < |log| && log[j].now - log[i].now < w ==> j - i + 1 <= log[j].limit.requests
  }

  lemma {:induction false} AfterHoldsSuffix(log: seq<Query>, start: real, i: nat)
    requires forall a, b :: 0 <= a < b < |log| ==> log[a].now <= log[b].now
    requires i <= |log| && (i < |log| ==> log[i].now > start)
    ensures |After(Times(log), start)| >= |log| - i
  {
    if i < |log| {
      var front := log[..|log| - 1];
      TimesAt(log);
      assert log[|log| - 1].now > start;
      assert Times(log)[..|log| - 1] == Times(front);
      AfterHoldsSuffix(front, start, i);
    }
  }

  /** An accept found too few since the cut to fill its limit. */
  lemma SuffixFits(log: seq<Query>, clock: real, cut: real, i: nat, requests: int)
    requires Ordered(log, clock) && i <= |log| && (i < |log| ==> log[i].now > cut)
    requires |After(Times(log), cut)| < requests
    ensures |log| - i + 1 <= requests
  {
    AfterHoldsSuffix(log, cut, i);
  }

  lemma AcceptKeepsBounded(log: seq<Query>, clock: real, q: Query, cut: real, w: real)
    requires Ordered(log, clock) && Bounded(log, w) && cut <= q.now - w
    requires |After(Times(log), cut)| < q.limit.requests
    ensures Bounded(log + [q], w)
  {
    forall i, j | 0 <= i <= j < |log + [q]| && (log + [q])[j].now - (log + [q])[i].now < w
      ensures j - i + 1 <= (log + [q])[j].limit.requests
    {
      if j == |log| {
        SuffixFits(log, clock, cut, i, q.limit.requests);
      }
    }
  }

  lemma CheckKeepsBounded(log: seq<Query>, clock: real, h: Cut, q: Query, kept: seq<real>, w: real)
    requires Ordered(log, clock) && Bounded(log, w) && kept == AfterCut(Times(log), h)
    requires Accepts(kept, q.limit, q.now)
    requires Move(h, q.now - q.limit.window).t <= q.now - w
    ensures Bounded(log + [q], w)
  {
    var from := q.now - q.limit.window;
    var c := Move(h, from);
    CutAgain(Times(log), h, from);
    assert After(kept, from) == After(Times(log), c.t);
    AcceptKeepsBounded(log, clock, q, c.t, w);
  }

  lemma StepKeepsBounded(s: State, q: Query, w: real)
    requires Inv(s) && Legal(s, q) && Bounded(s.log, w) && q.limit.window >= w
    requires s.horizon.CutAt? ==> s.horizon.t <= q.now - w
    ensures Bounded(Step(s, q).log, w)
  {
    if Accepts(s.kept, q.limit, q.now) {
      CheckKeepsBounded(s.log, s.clock, s.horizon, q, s.kept, w);
    }
  }

  /** What runs keep when no check uses a window shorter than `w`. */
  ghost predicate WideInv(s: State, w: real) {
    && Inv(s) && Bounded(s.log, w)
    && (s.horizon.CutAt? ==> s.horizon.t <= s.clock - w)
  }

  lemma StepKeepsWide(s: State, q: Query, w: real)
    requires WideInv(s, w) && Legal(s, q) && q.limit.window >= w
    ensures WideInv(Step(s, q), w)
  {
    StepKeepsInv(s, q);
    StepKeepsBounded(s, q, w);
  }

  lemma {:induction false} RunKeepsWide(s: State, qs: seq<Query>, w: real)
    requires WideInv(s, w) && LegalRun(s, qs) && WindowsAtLeast(qs, w)
    ensures WideInv(Run(s, qs), w)
    decreases qs
  {
    if qs != [] {
      StepKeepsWide(s, qs[0], w);
      assert WindowsAtLeast(qs[1..], w);
      RunKeepsWide(Step(s, qs[0]), qs[1..], w);
    }
  }

  /** How many accepts lie in an interval of the clock, closed at one end only. */
  function CountIn(log: seq<Query>, x: real, y: real, closedLeft: bool): nat {
    if log == [] then 0
    else CountIn(log[..|log| - 1], x, y, closedLeft) + if Within(log[|log| - 1].now, x, y, closedLeft) then 1 else 0
  }

  predicate Within(t: real, x: real, y: real, closedLeft: bool) {
    if closedLeft then x <= t < y else x < t <= y
  }

  /** In an ordered log the accepts of an interval are a run of neighbours. */
  lemma {:induction false} CountSpans(log: seq<Query>, x: real, y: real, closedLeft: bool) returns (i: nat, j: nat)
    requires forall a, b :: 0 <= a < b < |log| ==> log[a].now <= log[b].now
    requires CountIn(log, x, y, closedLeft) > 0
    ensures i <= j < |log| && Within(log[i].now, x, y, closedLeft) && Within(log[j].now, x, y, closedLeft)
    ensures CountIn(log, x, y, closedLeft) == j - i + 1
  {
    var front, last := log[..|log| - 1], log[|log| - 1];
    if CountIn(front, x, y, closedLeft) > 0 {
      i, j := CountSpans(front, x, y, closedLeft);
      if Within(last.now, x, y, closedLeft) {
        if j < |front| - 1 {
          CountWithin(front, x, y, closedLeft, i, |front| - 1);
        }
        j := |log| - 1;
      }
    } else {
      i, j := |log| - 1, |log| - 1;
    }
  }

  lemma {:induction false} CountWithin(log: seq<Query>, x: real, y: real, closedLeft: bool, i: nat, j: nat)
    requires forall a, b :: 0 <= a < b < |log| ==> log[a].now <= log[b].now
    requires i <= j == |log| - 1
    requires Within(log[i].now, x, y, closedLeft) && log[j].now <= y
    requires Within(log[j].now, x, y, closedLeft)
    ensures CountIn(log, x, y, closedLeft) >= j - i + 1
  {
    if i < j {
      assert log[i].now <= log[j - 1].now <= log[j].now;
      CountWithin(log[..j], x, y, closedLeft, i, j - 1);
    }
  }

  lemma BoundedCount(log: seq<Query>, clock: real, w: real, most: int, x: real, closedLeft: bool)
    requires Ordered(log, clock) && Bounded(log, w) && most >= 0
    requires forall i :: 0 <= i < |log| ==> log[i].limit.requests <= most
    ensures CountIn(log, x, x + w, closedLeft) <= most
  {
    if CountIn(log, x, x + w, closedLeft) > 0 {
      var i, j := CountSpans(log, x, x + w, closedLeft);
      assert log[j].now - log[i].now < w;
    }
  }

  /** Sliding-window bound: when no check used a window shorter than `w`, in particular when all
      share one, and the clock does not run back, every interval of that length, anywhere in a
      run and closed at either end, holds at most as many accepts as the largest limit accepted
      under. */
  lemma SlidingWindowBound(start: real, qs: seq<Query>, w: real, most: int, x: real, closedLeft: bool)
    requires LegalRun(Init(start), qs) && WindowsAtLeast(qs, w)
    requires most >= 0
    requires forall i :: 0 <= i < |Run(Init(start), qs).log| ==> Run(Init(start), qs).log[i].limit.requests <= most
    ensures CountIn(Run(Init(start), qs).log, x, x + w, closedLeft) <= most
  {
    RunKeepsWide(Init(start), qs, w);
    var s := Run(Init(start), qs);
    BoundedCount(s.log, s.clock, w, most, x, closedLeft);
  }

  /** An accept leaves at most its own limit in the window that ends with it. */
  lemma AcceptStaysWithinItsLimit(start: real, qs: seq<Query>, q: Query)
    requires LegalRun(Init(start), qs) && Legal(Run(Init(start), qs), q)
    requires WindowsAtLeast(qs, q.limit.window)
    requires Accepts(Run(Init(start), qs).kept, q.limit, q.now)
    ensures var log := Step(Run(Init(start), qs), q).log;
            1 <= |After(Times(log), q.now - q.limit.window)| <= q.limit.requests
  {
    RefinesFullLog(start, qs, q);
    var s := Run(Init(start), qs);
    assert (s.log + [q])[..|s.log|] == s.log;
    assert Times(s.log + [q]) == Times(s.log) + [q.now];
    AfterSnoc(Times(s.log), q.now, q.now - q.limit.window);
  }
}
