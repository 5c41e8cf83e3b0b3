/** Retrying with capped exponential backoff, and the daemon's reconnect delay. */
module Retry {

  datatype RetryConfig = RetryConfig(maxRetries: int, baseDelay: real, maxDelay: real, backoffFactor: real)

  /** What one call of the function does. */
  datatype Attempt<V, E> = Succeeded(value: V) | Retryable(error: E) | Fatal(error: E)

  datatype Outcome<V, E> = Returned(value: V) | Raised(error: E) | Exhausted

  function Min(x: real, y: real): real {
    if x <= y then x else y
  }

  function Power(x: real, k: nat): real {
    if k == 0 then 1.0 else Power(x, k - 1) * x
  }

  function Times(x: real, y: real): real {
    x * y
  }

  /** The delay before retry `k`, as the loop computes it: multiply, then cap. */
  function Delay(cfg: RetryConfig, k: nat): real {
    if k == 0 then cfg.baseDelay else Min(Times(Delay(cfg, k - 1), cfg.backoffFactor), cfg.maxDelay)
  }

  /** The delay as it is meant: exponential, capped once. */
  function Capped(cfg: RetryConfig, k: nat): real {
    Min(Times(cfg.baseDelay, Power(cfg.backoffFactor, k)), cfg.maxDelay)
  }

  /** The base multiplied `k` times. */
  function Grown(b: real, f: real, k: nat): real {
    if k == 0 then b else Times(Grown(b, f, k - 1), f)
  }

  lemma Regroup(b: real, p: real, f: real)
    ensures b * (p * f) == (b * p) * f
  {}

  lemma {:induction false} GrownIsPower(b: real, f: real, k: nat)
    ensures Grown(b, f, k) == Times(b, Power(f, k))
  {
    if k > 0 {
      GrownIsPower(b, f, k - 1);
      Regroup(b, Power(f, k - 1), f);
    }
  }

  /** One more multiplication, by a factor up to 1, keeps a delay between 0 and the cap. */
  lemma Shrinks(a: real, f: real, m: real)
    requires 0.0 <= a <= m && 0.0 <= f < 1.0
    ensures 0.0 <= a * f <= m
  {
    assert a * f <= a * 1.0;
  }

  lemma Scales(a: real, f: real)
    requires 0.0 <= a && 0.0 <= f
    ensures 0.0 <= a * f
  {}

  lemma {:induction false} GrownIsUnder(b: real, f: real, m: real, k: nat)
    requires 0.0 <= b <= m && 0.0 <= f
    ensures 0.0 <= Grown(b, f, k) && (f < 1.0 ==> Grown(b, f, k) <= m)
  {
    if k > 0 {
      GrownIsUnder(b, f, m, k - 1);
      var a := Grown(b, f, k - 1);
      if f < 1.0 {
        Shrinks(a, f, m);
      } else {
        Scales(a, f);
      }
    }
  }

  /** Capping before another multiplication loses nothing: a capped delay stays at the cap. */
  lemma CapThenMultiply(a: real, f: real, m: real)
    requires 0.0 <= a && 0.0 <= f && 0.0 <= m && (f < 1.0 ==> a <= m)
    ensures Min(Times(Min(a, m), f), m) == Min(Times(a, f), m)
  {
    if a > m {
      assert m * f >= m * 1.0;
      assert a * f >= m * f;
    }
  }

  lemma DelayStep(cfg: RetryConfig, k: nat, d: real, a: real)
    requires k > 0 && d == Delay(cfg, k - 1) && a == Grown(cfg.baseDelay, cfg.backoffFactor, k - 1)
    requires 0.0 <= a && 0.0 <= cfg.backoffFactor && 0.0 <= cfg.maxDelay
    requires cfg.backoffFactor < 1.0 ==> a <= cfg.maxDelay
    requires d == Min(a, cfg.maxDelay)
    ensures Delay(cfg, k) == Min(Grown(cfg.baseDelay, cfg.backoffFactor, k), cfg.maxDelay)
  {
    CapThenMultiply(a, cfg.backoffFactor, cfg.maxDelay);
    assert Delay(cfg, k) == Min(Times(d, cfg.backoffFactor), cfg.maxDelay);
    assert Grown(cfg.baseDelay, cfg.backoffFactor, k) == Times(a, cfg.backoffFactor);
  }

  lemma {:induction false} DelayIsGrown(cfg: RetryConfig, k: nat)
    requires 0.0 <= cfg.baseDelay <= cfg.maxDelay && 0.0 <= cfg.backoffFactor
    ensures Delay(cfg, k) == Min(Grown(cfg.baseDelay, cfg.backoffFactor, k), cfg.maxDelay)
  {
    if k > 0 {
      DelayIsGrown(cfg, k - 1);
      GrownIsUnder(cfg.baseDelay, cfg.backoffFactor, cfg.maxDelay, k - 1);
      DelayStep(cfg, k, Delay(cfg, k - 1), Grown(cfg.baseDelay, cfg.backoffFactor, k - 1));
    }
  }

  lemma DelayIsCapped(cfg: RetryConfig, k: nat)
    requires 0.0 <= cfg.baseDelay <= cfg.maxDelay && 0.0 <= cfg.backoffFactor
    ensures Delay(cfg, k) == Capped(cfg, k)
  {
    DelayIsGrown(cfg, k);
    GrownIsPower(cfg.baseDelay, cfg.backoffFactor, k);
  }

  /**
   * The iterated delay is the capped exponential exactly when the base is within the cap: the first
   * sleep is never capped.
   */
  lemma DelayIsCappedIff(cfg: RetryConfig)
    requires 0.0 <= cfg.baseDelay && 0.0 <= cfg.backoffFactor
    ensures (forall k: nat :: Delay(cfg, k) == Capped(cfg, k)) <==> cfg.baseDelay <= cfg.maxDelay
  {
    if cfg.baseDelay <= cfg.maxDelay {
      forall k: nat ensures Delay(cfg, k) == Capped(cfg, k) {
        DelayIsCapped(cfg, k);
      }
    } else {
      assert cfg.baseDelay * 1.0 == cfg.baseDelay;
      assert Delay(cfg, 0) != Capped(cfg, 0);
    }
  }

  function Delays(cfg: RetryConfig, n: nat): seq<real> {
    seq(n, k requires 0 <= k => Delay(cfg, k))
  }

  function Sum(xs: seq<real>): real {
    if xs == [] then 0.0 else Sum(xs[..|xs| - 1]) + xs[|xs| - 1]
  }

  lemma {:induction false} DelaysAreBounded(cfg: RetryConfig, n: nat)
    requires cfg.baseDelay <= cfg.maxDelay
    ensures Sum(Delays(cfg, n)) <= n as real * cfg.maxDelay
  {
    if n > 0 {
      DelaysAreBounded(cfg, n - 1);
      assert Delays(cfg, n)[..n - 1] == Delays(cfg, n - 1);
      assert Delay(cfg, n - 1) <= cfg.maxDelay;
      assert (n - 1) as real * cfg.maxDelay + cfg.maxDelay == n as real * cfg.maxDelay;
    }
  }

  /** The first of `n` calls that is not to be retried; `n` if there is none. */
  function FirstSettling<V, E>(attempts: nat -> Attempt<V, E>, n: nat): (k: nat)
    ensures k <= n && (k < n ==> !attempts(k).Retryable?) && forall j: nat | j < k :: attempts(j).Retryable?
  {
    if n == 0 then 0
    else
      var k := FirstSettling(attempts, n - 1);
      if k < n - 1 || !attempts(k).Retryable? then k else n
  }

  /**
   * `attempts(k)` is what call `k` does. Retryable failures are retried to the last of
   * `maxRetries + 1` calls, a fatal one never, and the sleeps between are the delays in order.
   */
  method RetryAsync<V, E>(cfg: RetryConfig, attempts: nat -> Attempt<V, E>)
    returns (outcome: Outcome<V, E>, calls: nat, sleeps: seq<real>)
    ensures var n := if cfg.maxRetries + 1 > 0 then cfg.maxRetries + 1 else 0;
      var k := FirstSettling(attempts, n);
      calls == (if k < n then k + 1 else n) &&
      sleeps == Delays(cfg, if calls > 0 then calls - 1 else 0) &&
      (k < n && attempts(k).Succeeded? ==> outcome == Returned(attempts(k).value)) &&
      (k < n && attempts(k).Fatal? ==> outcome == Raised(attempts(k).error)) &&
      (k == n > 0 ==> outcome == Raised(attempts(n - 1).error)) &&
      (n == 0 ==> outcome == Exhausted)
  {
    ghost var n := if cfg.maxRetries + 1 > 0 then cfg.maxRetries + 1 else 0;
    var delay := cfg.baseDelay;
    outcome := Exhausted;
    calls := 0;
    sleeps := [];
    var attempt := 0;
    while attempt < cfg.maxRetries + 1
      invariant 0 <= attempt <= n && calls == attempt
      invariant forall j: nat | j < attempt :: attempts(j).Retryable?
      invariant sleeps == Delays(cfg, if attempt == 0 then 0 else if attempt < n then attempt else n - 1)
      invariant attempt < n ==> delay == Delay(cfg, attempt)
      invariant outcome == if attempt == 0 then Exhausted else Raised(attempts(attempt - 1).error)
    {
      calls := calls + 1;
      match attempts(attempt) {
        case Succeeded(value) => return Returned(value), calls, sleeps;
        case Fatal(error) => return Raised(error), calls, sleeps;
        case Retryable(error) =>
          outcome := Raised(error);
          if attempt < cfg.maxRetries {
            sleeps := sleeps + [delay];
            delay := Min(delay * cfg.backoffFactor, cfg.maxDelay);
          }
      }
      attempt := attempt + 1;
    }
  }

  /** Failing to the end, a run makes one call more than it has retries and sleeps at most that often the cap. */
  lemma RetriesAreBounded<V, E>(cfg: RetryConfig, attempts: nat -> Attempt<V, E>)
    requires cfg.maxRetries >= 0 && cfg.baseDelay <= cfg.maxDelay && 0.0 <= cfg.maxDelay
    ensures var n := cfg.maxRetries + 1;
      var k := FirstSettling(attempts, n);
      (k == n <==> forall j: nat | j < n :: attempts(j).Retryable?) &&
      Sum(Delays(cfg, if k < n then k else n - 1)) <= cfg.maxRetries as real * cfg.maxDelay
  {
    var n := cfg.maxRetries + 1;
    var k := FirstSettling(attempts, n);
    var slept := if k < n then k else n - 1;
    DelaysAreBounded(cfg, slept);
    assert slept as real * cfg.maxDelay <= cfg.maxRetries as real * cfg.maxDelay;
  }

  // ---- Reconnecting ---------------------------------------------------------

  const RECONNECT: RetryConfig := RetryConfig(0, 1.0, 60.0, 2.0)

  /** One turn of the connection loop: whether it connected, whether it ended by an exception, whether a stop came. */
  datatype Round = Round(connected: bool, raised: bool, stopped: bool)

  /** Failed rounds since the last connection, the last round's own failure aside. */
  function StreakBefore(rounds: seq<Round>): nat
    requires rounds != []
    decreases rounds, 0
  {
    if rounds[|rounds| - 1].connected then 0 else Streak(rounds[..|rounds| - 1])
  }

  function Streak(rounds: seq<Round>): nat
    decreases rounds, 1
  {
    if rounds == [] then 0
    else StreakBefore(rounds) + (if Sleeps(rounds[|rounds| - 1]) then 1 else 0)
  }

  predicate Sleeps(r: Round) {
    r.raised && !r.stopped
  }

  /** What the loop sleeps: after each failure, the capped exponential in the failures since it last connected. */
  function SleepsOf(rounds: seq<Round>): seq<real> {
    if rounds == [] then []
    else
      SleepsOf(rounds[..|rounds| - 1]) +
      (if Sleeps(rounds[|rounds| - 1]) then [Capped(RECONNECT, StreakBefore(rounds))] else [])
  }

  /** The failures of the turns from `j` on, told by their position, the last turn's own aside. */
  ghost function FailuresFrom(rounds: seq<Round>, j: nat): set<nat> {
    set m: nat | j <= m < |rounds| - 1 && rounds[m].raised && !rounds[m].stopped
  }

  lemma FailuresGrow(rounds: seq<Round>, j: nat)
    requires j + 1 < |rounds|
    ensures var n, front := |rounds| - 2, rounds[..|rounds| - 1];
            |FailuresFrom(rounds, j)| ==
              |FailuresFrom(front, j)| + if rounds[n].raised && !rounds[n].stopped then 1 else 0
  {
    var n, front := |rounds| - 2, rounds[..|rounds| - 1];
    assert FailuresFrom(rounds, j) ==
      FailuresFrom(front, j) + if rounds[n].raised && !rounds[n].stopped then {n} else {};
  }

  /** The streak is the number of failures since the turn that connected last. */
  lemma {:induction false} StreakCounts(rounds: seq<Round>, j: nat)
    requires j < |rounds| && (j == 0 || rounds[j].connected)
    requires forall m :: j < m < |rounds| ==> !rounds[m].connected
    ensures StreakBefore(rounds) == |FailuresFrom(rounds, j)|
    decreases rounds
  {
    if j == |rounds| - 1 {
      assert FailuresFrom(rounds, j) == {};
    } else {
      StreakCounts(rounds[..|rounds| - 1], j);
      FailuresGrow(rounds, j);
    }
  }

  /** A turn adds a sleep exactly when it fails without a stop: one second doubled once for each failure
      since the turn `j` that connected last, and at most a minute. */
  lemma SleepIsDoubled(rounds: seq<Round>, j: nat)
    requires j < |rounds| && (j == 0 || rounds[j].connected)
    requires forall m :: j < m < |rounds| ==> !rounds[m].connected
    ensures var last := rounds[|rounds| - 1];
            SleepsOf(rounds) == SleepsOf(rounds[..|rounds| - 1]) +
              if last.raised && !last.stopped then [Min(Power(2.0, |FailuresFrom(rounds, j)|), 60.0)] else []
  {
    StreakCounts(rounds, j);
  }

  /** `rounds` are the turns of the loop; a stop makes a turn the last. */
  method ConnectionLoop(rounds: seq<Round>) returns (sleeps: seq<real>, reconnectDelay: real)
    requires forall i | 0 <= i < |rounds| - 1 :: !rounds[i].stopped
    ensures sleeps == SleepsOf(rounds)
    ensures reconnectDelay == Min(Power(2.0, Streak(rounds)), 60.0)
  {
    reconnectDelay := 1.0;
    sleeps := [];
    DelayIsCapped(RECONNECT, 0);
    assert rounds[..0] == [];
    var i := 0;
    while i < |rounds|
      invariant 0 <= i <= |rounds|
      invariant sleeps == SleepsOf(rounds[..i])
      invariant reconnectDelay == Delay(RECONNECT, Streak(rounds[..i]))
    {
      ghost var upTo := rounds[..i + 1];
      assert upTo[..i] == rounds[..i] && upTo[i] == rounds[i];
      if rounds[i].connected {
        reconnectDelay := 1.0;
      }
      if rounds[i].raised && !rounds[i].stopped {
        DelayIsCapped(RECONNECT, StreakBefore(upTo));
        sleeps := sleeps + [reconnectDelay];
        reconnectDelay := Min(reconnectDelay * 2.0, 60.0);
      }
      i := i + 1;
    }
    assert rounds[..i] == rounds;
    DelayIsCapped(RECONNECT, Streak(rounds));
  }
}
