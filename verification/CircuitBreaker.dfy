/** The circuit breaker, and what it amounts to over any interleaving of calls. */
module CircuitBreakerModel {

  datatype State = Closed | Open | HalfOpen

  datatype Breaker = Breaker(threshold: int, timeout: real, failures: int, lastFailure: real, state: State)

  function Initial(threshold: int, timeout: real): Breaker {
    Breaker(threshold, timeout, 0, 0.0, Closed)
  }

  /** Whether a call asking at `now` is turned away. */
  predicate TurnsAway(b: Breaker, now: real) {
    b.state == Open && !(now - b.lastFailure > b.timeout)
  }

  function Asked(b: Breaker, now: real): Breaker {
    if b.state == Open && now - b.lastFailure > b.timeout then b.(state := HalfOpen) else b
  }

  function Succeeded(b: Breaker): Breaker {
    b.(failures := 0, state := Closed)
  }

  function Failed(b: Breaker, now: real): Breaker {
    b.(failures := b.failures + 1, lastFailure := now,
       state := if b.failures + 1 >= b.threshold then Open else b.state)
  }

  datatype CallResult<V> = TurnedAway | Result(value: V) | Error

  class CircuitBreaker {
    const failureThreshold: int
    const resetTimeout: real
    var failures: int
    var lastFailure: real
    var state: State

    ghost function Spec(): Breaker
      reads this
    {
      Breaker(failureThreshold, resetTimeout, failures, lastFailure, state)
    }

    constructor (failureThreshold: int, resetTimeout: real)
      ensures Spec() == Initial(failureThreshold, resetTimeout)
    {
      this.failureThreshold, this.resetTimeout := failureThreshold, resetTimeout;
      failures, lastFailure, state := 0, 0.0, Closed;
    }

    method IsOpen(now: real) returns (open: bool)
      modifies this
      ensures Spec() == Asked(old(Spec()), now)
      ensures open <==> TurnsAway(old(Spec()), now)
    {
      if state == Open {
        if now - lastFailure > resetTimeout {
          state := HalfOpen;
          return false;
        }
        return true;
      }
      return false;
    }

    method RecordSuccess()
      modifies this
      ensures Spec() == Succeeded(old(Spec()))
    {
      failures := 0;
      state := Closed;
    }

    method RecordFailure(now: real)
      modifies this
      ensures Spec() == Failed(old(Spec()), now)
    {
      failures := failures + 1;
      lastFailure := now;
      if failures >= failureThreshold {
        state := Open;
      }
    }

    /** A call that nothing interleaves with: asked at `now`, over at `end`, with `value` unless it fails. */
    method Call<V>(now: real, end: real, value: V, fails: bool) returns (result: CallResult<V>)
      modifies this
      ensures TurnsAway(old(Spec()), now) ==> result == TurnedAway && Spec() == old(Spec())
      ensures !TurnsAway(old(Spec()), now) ==>
        result == (if fails then Error else Result(value)) &&
        Spec() == if fails then Failed(Asked(old(Spec()), now), end) else Succeeded(Asked(old(Spec()), now))
    {
      var open := IsOpen(now);
      if open {
        return TurnedAway;
      }
      if fails {
        RecordFailure(end);
        return Error;
      }
      RecordSuccess();
      return Result(value);
    }
  }

  // ---- Over any run ---------------------------------------------------------

  /** The steps of overlapping calls, in the order they happen. */
  datatype Event = Ask(now: real) | Succeed | Fail(now: real)

  function Step(b: Breaker, e: Event): Breaker {
    match e
    case Ask(now) => Asked(b, now)
    case Succeed => Succeeded(b)
    case Fail(now) => Failed(b, now)
  }

  function Run(b: Breaker, es: seq<Event>): Breaker {
    if es == [] then b else Step(Run(b, es[..|es| - 1]), es[|es| - 1])
  }

  /** The failures recorded since the last success. */
  function FailuresSince(es: seq<Event>): nat {
    if es == [] then 0
    else match es[|es| - 1]
      case Ask(_) => FailuresSince(es[..|es| - 1])
      case Succeed => 0
      case Fail(_) => FailuresSince(es[..|es| - 1]) + 1
  }

  /** When the latest failure was recorded; 0 before the first. */
  function LatestFailure(es: seq<Event>): real {
    if es == [] then 0.0
    else match es[|es| - 1]
      case Fail(now) => now
      case _ => LatestFailure(es[..|es| - 1])
  }

  /** A clock that never goes back and ends no later than `now`. */
  predicate RunsUpTo(es: seq<Event>, now: real) {
    es == [] ||
    match es[|es| - 1]
    case Ask(t) => t <= now && RunsUpTo(es[..|es| - 1], t)
    case Fail(t) => t <= now && RunsUpTo(es[..|es| - 1], t)
    case Succeed => RunsUpTo(es[..|es| - 1], now)
  }

  /** What the breaker holds after the history `es`. */
  predicate Reflects(b: Breaker, es: seq<Event>, now: real) {
    b.failures == FailuresSince(es) && b.lastFailure == LatestFailure(es) &&
    (b.state == Closed <==> b.failures < b.threshold) &&
    (b.state == HalfOpen ==> now - b.lastFailure > b.timeout)
  }

  lemma {:induction false} RunReflects(threshold: int, timeout: real, es: seq<Event>, now: real)
    requires threshold >= 1 && RunsUpTo(es, now)
    ensures Reflects(Run(Initial(threshold, timeout), es), es, now)
    ensures Run(Initial(threshold, timeout), es).threshold == threshold
    ensures Run(Initial(threshold, timeout), es).timeout == timeout
    decreases es
  {
    if es != [] {
      var front := es[..|es| - 1];
      match es[|es| - 1] {
        case Ask(t) => RunReflects(threshold, timeout, front, t);
        case Fail(t) => RunReflects(threshold, timeout, front, t);
        case Succeed => RunReflects(threshold, timeout, front, now);
      }
    }
  }

  /**
   * Whatever calls overlap, the breaker is closed exactly below the threshold of failures since the
   * last success, and a call is let in exactly then or more than the timeout after the latest failure.
   */
  lemma AdmissionFollowsHistory(threshold: int, timeout: real, es: seq<Event>, now: real)
    requires threshold >= 1 && RunsUpTo(es, now)
    ensures var b := Run(Initial(threshold, timeout), es);
      b.failures == FailuresSince(es) &&
      (b.state == Closed <==> FailuresSince(es) < threshold) &&
      (!TurnsAway(b, now) <==> FailuresSince(es) < threshold || now - LatestFailure(es) > timeout)
  {
    RunReflects(threshold, timeout, es, now);
  }

  /** Since the latest failure some call has asked more than the timeout after it. */
  predicate Probed(timeout: real, es: seq<Event>) {
    es != [] &&
    match es[|es| - 1]
    case Ask(t) => t - LatestFailure(es) > timeout || Probed(timeout, es[..|es| - 1])
    case _ => false
  }

  /** The state is told by the history: closed below the threshold of failures since the last success; else
      half-open once a call has asked more than the timeout after the latest failure, and open until then. */
  lemma {:induction false} StateFollowsHistory(threshold: int, timeout: real, es: seq<Event>)
    requires threshold >= 1
    ensures Run(Initial(threshold, timeout), es).state ==
      if FailuresSince(es) < threshold then Closed else if Probed(timeout, es) then HalfOpen else Open
    decreases es
  {
    if es != [] {
      StateFollowsHistory(threshold, timeout, es[..|es| - 1]);
      RunRecords(threshold, timeout, es[..|es| - 1]);
    }
  }

  lemma {:induction false} RunRecords(threshold: int, timeout: real, es: seq<Event>)
    ensures var b := Run(Initial(threshold, timeout), es);
            b.threshold == threshold && b.timeout == timeout &&
            b.failures == FailuresSince(es) && b.lastFailure == LatestFailure(es)
    decreases es
  {
    if es != [] { RunRecords(threshold, timeout, es[..|es| - 1]); }
  }

  /** One failed probe reopens: the next call is let in only the whole timeout after it. */
  lemma FailedProbeReopens(threshold: int, timeout: real, es: seq<Event>, failed: real, now: real)
    requires threshold >= 1 && RunsUpTo(es, failed) && failed <= now
    requires Run(Initial(threshold, timeout), es).state == HalfOpen
    ensures Run(Initial(threshold, timeout), es + [Fail(failed)]).state == Open
    ensures TurnsAway(Run(Initial(threshold, timeout), es + [Fail(failed)]), now) <==> now - failed <= timeout
  {
    RunReflects(threshold, timeout, es, failed);
    assert (es + [Fail(failed)])[..|es|] == es;
  }

  lemma {:induction false} RunKeepsThreshold(b: Breaker, es: seq<Event>)
    ensures Run(b, es).threshold == b.threshold && Run(b, es).timeout == b.timeout
    decreases es
  {
    if es != [] { RunKeepsThreshold(b, es[..|es| - 1]); }
  }

  /** A threshold below one acts as a threshold of one. */
  lemma {:induction false} LowThresholdActsAsOne(threshold: int, timeout: real, es: seq<Event>)
    requires threshold < 1
    ensures Run(Initial(threshold, timeout), es) == Run(Initial(1, timeout), es).(threshold := threshold)
    ensures Run(Initial(1, timeout), es).failures >= 0
    decreases es
  {
    if es != [] {
      var front, e := es[..|es| - 1], es[|es| - 1];
      LowThresholdActsAsOne(threshold, timeout, front);
      var low, one := Run(Initial(threshold, timeout), front), Run(Initial(1, timeout), front);
      assert low == one.(threshold := threshold) && one.failures >= 0;
      RunKeepsThreshold(Initial(1, timeout), front);
      assert Step(low, e) == Step(one, e).(threshold := threshold);
    }
  }

  /** After a history the breaker is closed exactly below its threshold, if and only if the threshold is
      at least one or the history ends in failures: otherwise it is closed without being below. */
  lemma ReflectsIff(threshold: int, timeout: real, es: seq<Event>, now: real)
    requires RunsUpTo(es, now)
    ensures Reflects(Run(Initial(threshold, timeout), es), es, now) <==> threshold >= 1 || FailuresSince(es) > 0
  {
    if threshold >= 1 {
      RunReflects(threshold, timeout, es, now);
    } else {
      LowThresholdActsAsOne(threshold, timeout, es);
      RunReflects(1, timeout, es, now);
    }
  }
}
