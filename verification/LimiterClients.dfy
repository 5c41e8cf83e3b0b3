/** All clients of one limiter. Their checks interleave on one map of lists; each client is answered
    as if it had a limiter of its own, so the laws of one list hold for what the object answers. */
module LimiterClients {
  import opened RateLimiterModel

  datatype Call = Call(key: string, query: Query)

  predicate Accepted(windows: Windows, c: Call) {
    Answer(windows, c.key, c.query.limit, c.query.now)
  }

  function AfterCall(windows: Windows, c: Call): Windows {
    Checked(windows, c.key, c.query.limit, c.query.now)
  }

  function CheckedAll(windows: Windows, calls: seq<Call>): Windows
    decreases calls
  {
    if calls == [] then windows else CheckedAll(AfterCall(windows, calls[0]), calls[1..])
  }

  /** The checks of one client. */
  function QueriesOf(calls: seq<Call>, key: string): seq<Query> {
    if calls == [] then []
    else (if calls[0].key == key then [calls[0].query] else []) + QueriesOf(calls[1..], key)
  }

  /** Those of them that were answered with an accept. */
  function AcceptedOf(windows: Windows, calls: seq<Call>, key: string): seq<Query>
    decreases calls
  {
    if calls == [] then []
    else
      (if calls[0].key == key && Accepted(windows, calls[0]) then [calls[0].query] else []) +
      AcceptedOf(AfterCall(windows, calls[0]), calls[1..], key)
  }

  /** One clock for all clients, which does not run backwards; windows have a length. */
  predicate OneClock(start: real, calls: seq<Call>) {
    && (forall i :: 0 <= i < |calls| ==> start <= calls[i].query.now && calls[i].query.limit.window > 0.0)
    && (forall i, j :: 0 <= i < j < |calls| ==> calls[i].query.now <= calls[j].query.now)
  }

  lemma OneClockTail(start: real, calls: seq<Call>)
    requires OneClock(start, calls) && calls != []
    ensures OneClock(calls[0].query.now, calls[1..]) && OneClock(start, calls[1..])
  {}

  /** The client's list in the object is that of a limiter of its own, from any point on. */
  lemma {:induction false} ListIsOwnRun(windows: Windows, calls: seq<Call>, key: string, s: State)
    requires s.kept == if key in windows then windows[key] else []
    ensures Run(s, QueriesOf(calls, key)).kept ==
              (if key in CheckedAll(windows, calls) then CheckedAll(windows, calls)[key] else [])
    ensures Run(s, QueriesOf(calls, key)).log == s.log + AcceptedOf(windows, calls, key)
    decreases calls
  {
    if calls != [] {
      var c, w' := calls[0], AfterCall(windows, calls[0]);
      if c.key == key {
        var qs, s' := QueriesOf(calls, key), Step(s, c.query);
        assert qs[0] == c.query && qs[1..] == QueriesOf(calls[1..], key);
        ListIsOwnRun(w', calls[1..], key, s');
        LogJoins(s.log, c.query, Accepted(windows, c), AcceptedOf(w', calls[1..], key));
      } else {
        ListIsOwnRun(w', calls[1..], key, s);
        assert QueriesOf(calls, key) == QueriesOf(calls[1..], key);
        assert AcceptedOf(windows, calls, key) == AcceptedOf(w', calls[1..], key);
      }
    }
  }

  lemma LogJoins(log: seq<Query>, q: Query, ok: bool, rest: seq<Query>)
    ensures (if ok then log + [q] else log) + rest == log + ((if ok then [q] else []) + rest)
  {}

  lemma {:induction false} OwnRunIsLegal(s: State, calls: seq<Call>, key: string)
    requires OneClock(s.clock, calls)
    ensures LegalRun(s, QueriesOf(calls, key))
    decreases calls
  {
    if calls != [] {
      OneClockTail(s.clock, calls);
      if calls[0].key == key {
        var qs := QueriesOf(calls, key);
        assert qs[0] == calls[0].query && qs[1..] == QueriesOf(calls[1..], key);
        OwnRunIsLegal(Step(s, calls[0].query), calls[1..], key);
      } else {
        OwnRunIsLegal(s, calls[1..], key);
        assert QueriesOf(calls, key) == QueriesOf(calls[1..], key);
      }
    }
  }

  /** Clients do not affect one another: however their checks interleave on one clock, the object
      keeps for each the list a limiter of its own would keep, and accepts what that would accept. */
  lemma ClientsAreSeparate(start: real, calls: seq<Call>, key: string)
    requires OneClock(start, calls)
    ensures var windows, own := CheckedAll(map[], calls), Run(Init(start), QueriesOf(calls, key));
            && LegalRun(Init(start), QueriesOf(calls, key))
            && own.kept == (if key in windows then windows[key] else [])
            && own.log == AcceptedOf(map[], calls, key)
  {
    OwnRunIsLegal(Init(start), calls, key);
    ListIsOwnRun(map[], calls, key, Init(start));
    assert [] + AcceptedOf(map[], calls, key) == AcceptedOf(map[], calls, key);
  }

  /** Every check of the client is under a window of at least `w` and a limit of at most `most`. */
  predicate LimitsWithin(calls: seq<Call>, key: string, w: real, most: int) {
    forall i :: 0 <= i < |calls| && calls[i].key == key ==>
      calls[i].query.limit.window >= w && calls[i].query.limit.requests <= most
  }

  lemma {:induction false} WindowsOf(calls: seq<Call>, key: string, w: real)
    requires forall i :: 0 <= i < |calls| && calls[i].key == key ==> calls[i].query.limit.window >= w
    ensures WindowsAtLeast(QueriesOf(calls, key), w)
    decreases calls
  {
    if calls != [] { WindowsOf(calls[1..], key, w); }
  }

  lemma {:induction false} AcceptedWithin(windows: Windows, calls: seq<Call>, key: string, w: real, most: int)
    requires LimitsWithin(calls, key, w, most)
    ensures forall i :: 0 <= i < |AcceptedOf(windows, calls, key)| ==>
              AcceptedOf(windows, calls, key)[i].limit.requests <= most
    decreases calls
  {
    if calls != [] {
      AcceptedWithin(AfterCall(windows, calls[0]), calls[1..], key, w, most);
    }
  }

  /** What each client gets: no interval of length `w`, closed at either end, holds more accepts of
      the client than the largest limit it was checked under, if no window of its checks was shorter. */
  lemma ClientIsLimited(start: real, calls: seq<Call>, key: string, w: real, most: int, x: real, closedLeft: bool)
    requires OneClock(start, calls) && LimitsWithin(calls, key, w, most) && most >= 0
    ensures CountIn(AcceptedOf(map[], calls, key), x, x + w, closedLeft) <= most
  {
    ClientsAreSeparate(start, calls, key);
    WindowsOf(calls, key, w);
    AcceptedWithin(map[], calls, key, w, most);
    SlidingWindowBound(start, QueriesOf(calls, key), w, most, x, closedLeft);
  }

  lemma {:induction false} AfterIsCount(log: seq<Query>, clock: real, from: real, now: real)
    requires Ordered(log, clock) && clock <= now
    ensures |After(Times(log), from)| == CountIn(log, from, now, false)
  {
    if log != [] {
      AfterIsCount(log[..|log| - 1], clock, from, now);
      AfterSnoc(Times(log[..|log| - 1]), log[|log| - 1].now, from);
    }
  }

  /** The decision goes by how many accepts there have been in the window that ends now. */
  predicate GoesByCount(accepts: bool, log: seq<Query>, q: Query) {
    accepts <==> CountIn(log, q.now - q.limit.window, q.now, false) < q.limit.requests
  }

  lemma OwnAnswersIff(start: real, qs: seq<Query>, q: Query, own: State)
    requires LegalRun(Init(start), qs) && own == Run(Init(start), qs) && Legal(own, q)
    requires WindowsAtLeast(qs, q.limit.window)
    ensures GoesByCount(Accepts(own.kept, q.limit, q.now), own.log, q)
  {
    RefinesFullLog(start, qs, q);
    FreshRunInv(start, qs);
    AfterIsCount(own.log, own.clock, q.now - q.limit.window, q.now);
  }

  lemma OwnIsAnsweredIff(start: real, calls: seq<Call>, c: Call)
    requires OneClock(start, calls + [c])
    requires forall i :: 0 <= i < |calls| && calls[i].key == c.key ==>
               calls[i].query.limit.window >= c.query.limit.window
    ensures var own := Run(Init(start), QueriesOf(calls, c.key));
            GoesByCount(Accepts(own.kept, c.query.limit, c.query.now), own.log, c.query)
  {
    var qs := QueriesOf(calls, c.key);
    assert LegalRun(Init(start), qs) by {
      EarlierClock(start, calls, c);
      OwnRunIsLegal(Init(start), calls, c.key);
    }
    assert WindowsAtLeast(qs, c.query.limit.window) by { WindowsOf(calls, c.key, c.query.limit.window); }
    assert Legal(Run(Init(start), qs), c.query) by { ClockOf(start, calls, c); }
    OwnAnswersIff(start, qs, c.query, Run(Init(start), qs));
  }

  /** When the client's earlier checks used no shorter window, a check is accepted if and only if in the
      window that ends now the client has been given fewer accepts than the limit. */
  lemma ClientIsAnsweredIff(start: real, calls: seq<Call>, c: Call)
    requires OneClock(start, calls + [c])
    requires forall i :: 0 <= i < |calls| && calls[i].key == c.key ==>
               calls[i].query.limit.window >= c.query.limit.window
    ensures GoesByCount(Accepted(CheckedAll(map[], calls), c), AcceptedOf(map[], calls, c.key), c.query)
  {
    EarlierClock(start, calls, c);
    ClientsAreSeparate(start, calls, c.key);
    OwnIsAnsweredIff(start, calls, c);
  }

  lemma EarlierClock(start: real, calls: seq<Call>, c: Call)
    requires OneClock(start, calls + [c])
    ensures OneClock(start, calls)
    ensures start <= c.query.now && c.query.limit.window > 0.0
    ensures forall i :: 0 <= i < |calls| ==> calls[i].query.now <= c.query.now
  {
    var all := calls + [c];
    assert all[|calls|] == c;
    assert forall i :: 0 <= i < |calls| ==> all[i] == calls[i];
  }

  lemma {:induction false} QueriesBefore(calls: seq<Call>, key: string, now: real)
    requires forall i :: 0 <= i < |calls| ==> calls[i].query.now <= now
    ensures forall i :: 0 <= i < |QueriesOf(calls, key)| ==> QueriesOf(calls, key)[i].now <= now
    decreases calls
  {
    if calls != [] { QueriesBefore(calls[1..], key, now); }
  }

  lemma {:induction false} ClockIsLast(s: State, qs: seq<Query>, now: real)
    requires s.clock <= now && forall i :: 0 <= i < |qs| ==> qs[i].now <= now
    ensures Run(s, qs).clock <= now
    decreases qs
  {
    if qs != [] { ClockIsLast(Step(s, qs[0]), qs[1..], now); }
  }

  lemma ClockOf(start: real, calls: seq<Call>, c: Call)
    requires OneClock(start, calls + [c])
    ensures Legal(Run(Init(start), QueriesOf(calls, c.key)), c.query)
  {
    EarlierClock(start, calls, c);
    QueriesBefore(calls, c.key, c.query.now);
    ClockIsLast(Init(start), QueriesOf(calls, c.key), c.query.now);
  }
}
