/** The retry policy (internal/delivery/retry.go). */
module Retry {
  import opened Domain

  const MINUTE: Duration := 60_000_000_000

  /** What rand.Float64 returns. */
  type Draw = x: real | 0.0 <= x < 1.0 witness 0.0

  /** The classified error of a failed send; None models a plain error. */
  datatype ProviderError = ProviderError(permanent: bool, retryAfter: Option<Duration>)

  datatype Policy = Policy(maxAttempts: int, backoff: seq<Duration>, jitterRatio: real)

  datatype Outcome =
    | GiveUp(attempts: int)
    | RetryAt(attempts: int, next: Time)

  /** time.Duration(f): truncation toward zero. */
  function Trunc(x: real): int
  {
    if x >= 0.0 then x.Floor else -((-x).Floor)
  }

  function Delta(p: Policy, d: Duration): real
  {
    d as real * p.jitterRatio
  }

  function ApplyJitter(p: Policy, d: Duration, u: Draw): Duration
  {
    if p.jitterRatio <= 0.0 then d else Offset(d as real, Delta(p, d), u)
  }

  /** A draw from [-delta, +delta). */
  function Swing(delta: real, u: Draw): real
  {
    (u * 2.0 - 1.0) * delta
  }

  /** base plus a swing, truncated and clamped at zero. */
  function Offset(base: real, delta: real, u: Draw): Duration
  {
    var jittered := Trunc(base + Swing(delta, u));
    if jittered < 0 then 0 else jittered
  }

  /** The schedule entry used for the given attempt (1-based). */
  function BaseFor(p: Policy, attempt: int): Duration
    requires p.backoff != [] && attempt >= 1
  {
    p.backoff[if attempt - 1 >= |p.backoff| then |p.backoff| - 1 else attempt - 1]
  }

  function BackoffFor(p: Policy, attempt: int, u: Draw): Duration
    requires attempt >= 1
  {
    if p.backoff == [] then MINUTE else ApplyJitter(p, BaseFor(p, attempt), u)
  }

  predicate HonoursRetryAfter(perr: Option<ProviderError>)
  {
    perr.Some? && perr.value.retryAfter.Some? && perr.value.retryAfter.value > 0
  }

  predicate IsPermanent(perr: Option<ProviderError>)
  {
    perr.Some? && perr.value.permanent
  }

  function Evaluate(p: Policy, now: Time, currentAttempts: int, perr: Option<ProviderError>, u: Draw): Outcome
    requires currentAttempts >= 0
  {
    var attempts := currentAttempts + 1;
    if IsPermanent(perr) || attempts >= p.maxAttempts then GiveUp(attempts)
    else RetryAt(attempts, now + if HonoursRetryAfter(perr) then perr.value.retryAfter.value else BackoffFor(p, attempts, u))
  }

  /** The policy object: its schedule is fixed, its random source advances. */
  class RetryPolicy {
    const policy: Policy
    const draws: nat -> Draw
    var drawn: nat

    constructor (policy: Policy, draws: nat -> Draw)
      ensures this.policy == policy && this.draws == draws && drawn == 0
    {
      this.policy, this.draws, this.drawn := policy, draws, 0;
    }

    method EvaluateFailure(now: Time, currentAttempts: int, perr: Option<ProviderError>) returns (o: Outcome)
      requires currentAttempts >= 0
      modifies this
      ensures o == Evaluate(policy, now, currentAttempts, perr, draws(old(drawn)))
      ensures drawn == old(drawn) || drawn == old(drawn) + 1
    {
      var attempts := currentAttempts + 1;
      if perr.Some? && perr.value.permanent {
        return GiveUp(attempts);
      }
      if attempts >= policy.maxAttempts {
        return GiveUp(attempts);
      }
      var wait;
      if perr.Some? && perr.value.retryAfter.Some? && perr.value.retryAfter.value > 0 {
        wait := perr.value.retryAfter.value;
      } else {
        wait := NextBackoff(attempts);
      }
      return RetryAt(attempts, now + wait);
    }

    method NextBackoff(attempt: int) returns (wait: Duration)
      requires attempt >= 1
      modifies this
      ensures wait == BackoffFor(policy, attempt, draws(old(drawn)))
      ensures drawn == old(drawn) || drawn == old(drawn) + 1
    {
      if |policy.backoff| == 0 {
        return MINUTE;
      }
      var idx := attempt - 1;
      if idx >= |policy.backoff| {
        idx := |policy.backoff| - 1;
      }
      wait := Jitter(policy.backoff[idx]);
    }

    method Jitter(d: Duration) returns (j: Duration)
      modifies this
      ensures j == ApplyJitter(policy, d, draws(old(drawn)))
      ensures drawn == if policy.jitterRatio <= 0.0 then old(drawn) else old(drawn) + 1
    {
      hide Swing, Delta;
      if policy.jitterRatio <= 0.0 {
        return d;
      }
      var u := draws(drawn);
      drawn := drawn + 1;
      var delta := Delta(policy, d);
      var offset := Swing(delta, u);
      j := Trunc(d as real + offset);
      if j < 0 {
        j := 0;
      }
      assert j == Offset(d as real, delta, u);
    }
  }

  /** A jittered wait stays within the ratio of its base, up to truncation. */
  lemma JitterWithinRatio(p: Policy, d: Duration, u: Draw)
    requires d >= 0 && 0.0 <= p.jitterRatio <= 1.0
    ensures var delta := d as real * p.jitterRatio;
            0 <= ApplyJitter(p, d, u) && d as real - delta - 1.0 < ApplyJitter(p, d, u) as real <= d as real + delta
  {
    var base, delta := d as real, d as real * p.jitterRatio;
    Scale(base, p.jitterRatio);
    Spread(base, delta, u);
    if p.jitterRatio > 0.0 {
      assert ApplyJitter(p, d, u) == Offset(base, delta, u);
    } else {
      assert delta == 0.0;
    }
  }

  /** The wait as the draw decides it: the base stretched by the ratio, from one end at 0 over the base itself at one half. */
  lemma WaitByDraw(p: Policy, d: Duration, u: Draw)
    requires d >= 0 && 0.0 <= p.jitterRatio <= 1.0
    ensures ApplyJitter(p, d, u) == (d as real * (1.0 + p.jitterRatio * (2.0 * u - 1.0))).Floor
    ensures ApplyJitter(p, d, 0.0) == (d as real - d as real * p.jitterRatio).Floor
    ensures ApplyJitter(p, d, 0.5) == d
  {
    hide ApplyJitter;
    JitterByDraw(p, d, u);
    JitterByDraw(p, d, 0.0);
    JitterByDraw(p, d, 0.5);
    Stretch(d as real, p.jitterRatio, d as real * p.jitterRatio, 0.0);
    Stretch(d as real, p.jitterRatio, d as real * p.jitterRatio, 0.5);
  }

  lemma JitterByDraw(p: Policy, d: Duration, u: Draw)
    requires d >= 0 && 0.0 <= p.jitterRatio <= 1.0
    ensures ApplyJitter(p, d, u) == (d as real * (1.0 + p.jitterRatio * (2.0 * u - 1.0))).Floor
  {
    if p.jitterRatio == 0.0 {
      assert p.jitterRatio * (2.0 * u - 1.0) == 0.0;
    } else {
      DrawOffset(d as real, p.jitterRatio, Delta(p, d), u);
    }
  }

  lemma Stretch(base: real, ratio: real, delta: real, u: Draw)
    requires base >= 0.0 && 0.0 <= ratio <= 1.0 && delta == base * ratio
    ensures base + Swing(delta, u) == base * (1.0 + ratio * (2.0 * u - 1.0))
    ensures base * (1.0 + ratio * (2.0 * u - 1.0)) >= 0.0
    ensures u == 0.0 ==> base * (1.0 + ratio * (2.0 * u - 1.0)) == base - base * ratio
    ensures u == 0.5 ==> base * (1.0 + ratio * (2.0 * u - 1.0)) == base
  {
    var t := 2.0 * u - 1.0;
    Times(ratio, -1.0, t);
    Times(base, 0.0, 1.0 + ratio * t);
  }

  lemma Times(x: real, a: real, b: real)
    requires x >= 0.0 && a <= b
    ensures x * a <= x * b
  {
  }

  lemma DrawOffset(base: real, ratio: real, delta: real, u: Draw)
    requires base >= 0.0 && 0.0 <= ratio <= 1.0 && delta == base * ratio
    ensures Offset(base, delta, u) == (base * (1.0 + ratio * (2.0 * u - 1.0))).Floor
  {
    hide Swing;
    Stretch(base, ratio, delta, u);
  }

  /** A larger draw never shortens the wait. */
  lemma WaitGrowsWithDraw(p: Policy, d: Duration, u: Draw, v: Draw)
    requires d >= 0 && 0.0 <= p.jitterRatio <= 1.0 && u <= v
    ensures ApplyJitter(p, d, u) <= ApplyJitter(p, d, v)
  {
    hide ApplyJitter;
    WaitByDraw(p, d, u);
    WaitByDraw(p, d, v);
    var base := d as real;
    Times(p.jitterRatio, 2.0 * u - 1.0, 2.0 * v - 1.0);
    Times(base, 1.0 + p.jitterRatio * (2.0 * u - 1.0), 1.0 + p.jitterRatio * (2.0 * v - 1.0));
  }

  lemma Scale(base: real, ratio: real)
    requires base >= 0.0 && 0.0 <= ratio <= 1.0
    ensures 0.0 <= base * ratio <= base
  {
  }

  lemma Spread(base: real, delta: real, u: Draw)
    requires 0.0 <= delta <= base
    ensures base - delta - 1.0 < Offset(base, delta, u) as real <= base + delta
  {
    var t := u * 2.0 - 1.0;
    assert -delta <= t * delta <= delta;
  }

  /** The computed wait can never be negative exactly when jitter is on or the base is not. */
  lemma WaitNonNegativeIff(p: Policy, d: Duration)
    ensures (forall u: Draw :: ApplyJitter(p, d, u) >= 0) <==> p.jitterRatio > 0.0 || d >= 0
  {
    var u: Draw := 0.0;
    assert p.jitterRatio <= 0.0 ==> ApplyJitter(p, d, u) == d;
  }

  /** A failed send as the worker sees it: when, what error, which draw. */
  datatype Failure = Failure(at: Time, perr: Option<ProviderError>, u: Draw)

  /** Consecutive failed sends of one delivery, ending where the policy gives up. */
  function FailureRun(p: Policy, attempts: int, failures: seq<Failure>): (outcomes: seq<Outcome>)
    requires attempts >= 0
    decreases |failures|
  {
    if failures == [] then []
    else
      var f := failures[0];
      var o := Evaluate(p, f.at, attempts, f.perr, f.u);
      [o] + if o.GiveUp? then [] else FailureRun(p, o.attempts, failures[1..])
  }

  /** How many sends happen before the policy gives up, if failures go on for long enough. */
  function GiveUpAfter(p: Policy, attempts: int, failures: seq<Failure>): (n: nat)
    ensures n <= |failures|
    decreases |failures|
  {
    if failures == [] then 0
    else if IsPermanent(failures[0].perr) || attempts + 1 >= p.maxAttempts then 1
    else 1 + GiveUpAfter(p, attempts + 1, failures[1..])
  }

  /** The whole run: every outcome is the policy's, counted up by one, and only the last one gives up. */
  lemma {:induction false} FailureRunShape(p: Policy, attempts: int, failures: seq<Failure>, i: nat)
    requires 0 <= attempts && i < GiveUpAfter(p, attempts, failures)
    decreases |failures|
    ensures var outs := FailureRun(p, attempts, failures);
            && |outs| == GiveUpAfter(p, attempts, failures)
            && outs[i] == Evaluate(p, failures[i].at, attempts + i, failures[i].perr, failures[i].u)
            && outs[i].attempts == attempts + i + 1
            && (outs[i].GiveUp? ==> i == |outs| - 1)
  {
    var f := failures[0];
    var o := Evaluate(p, f.at, attempts, f.perr, f.u);
    if o.RetryAt? {
      var rest := FailureRun(p, o.attempts, failures[1..]);
      RunLength(p, o.attempts, failures[1..]);
      if i > 0 {
        FailureRunShape(p, o.attempts, failures[1..], i - 1);
        assert FailureRun(p, attempts, failures)[i] == rest[i - 1];
      }
    }
  }

  lemma {:induction false} RunLength(p: Policy, attempts: int, failures: seq<Failure>)
    requires 0 <= attempts
    decreases |failures|
    ensures |FailureRun(p, attempts, failures)| == GiveUpAfter(p, attempts, failures)
  {
    if failures != [] && !IsPermanent(failures[0].perr) && attempts + 1 < p.maxAttempts {
      RunLength(p, attempts + 1, failures[1..]);
    }
  }

  /** With transient failures only: maxAttempts - 1 retries, then FAILED at the ceiling. */
  lemma {:induction false} TransientRunExhausts(p: Policy, attempts: int, failures: seq<Failure>)
    requires 0 <= attempts < p.maxAttempts <= attempts + |failures|
    requires forall i :: 0 <= i < |failures| ==> !IsPermanent(failures[i].perr)
    decreases |failures|
    ensures var outs := FailureRun(p, attempts, failures);
            && |outs| == p.maxAttempts - attempts
            && outs[|outs| - 1] == GiveUp(p.maxAttempts)
            && forall i :: 0 <= i < |outs| - 1 ==> outs[i].RetryAt?
  {
    var f := failures[0];
    var o := Evaluate(p, f.at, attempts, f.perr, f.u);
    if o.RetryAt? {
      TransientRunExhausts(p, attempts + 1, failures[1..]);
      var rest := FailureRun(p, o.attempts, failures[1..]);
      assert FailureRun(p, attempts, failures) == [o] + rest;
    }
  }

  /** The entry of the schedule that the i-th retry (from 0) waits for: the last one once the schedule is used up. */
  function ScheduleEntry(p: Policy, i: nat): Duration
    requires p.backoff != []
  {
    if i < |p.backoff| then p.backoff[i] else p.backoff[|p.backoff| - 1]
  }

  /** A jitter ratio in range and a schedule of non-negative waits. */
  predicate IsPolicyOk(p: Policy)
  {
    0.0 <= p.jitterRatio <= 1.0 && forall j :: 0 <= j < |p.backoff| ==> p.backoff[j] >= 0
  }

  /** The i-th wait is right: a positive Retry-After as given, else the schedule within its jitter, else a minute. */
  predicate IsWait(p: Policy, i: nat, perr: Option<ProviderError>, wait: Duration)
  {
    if perr.Some? && perr.value.retryAfter.Some? && perr.value.retryAfter.value > 0 then wait == perr.value.retryAfter.value
    else if p.backoff == [] then wait == 60_000_000_000
    else
      var base := ScheduleEntry(p, i) as real;
      0 <= wait && base - base * p.jitterRatio - 1.0 < wait as real <= base + base * p.jitterRatio
  }

  /** The retry schedule over a whole run: transient failures are retried one after the other, each after its own wait. */
  lemma RetrySchedule(p: Policy, failures: seq<Failure>, i: nat)
    requires i + 1 < p.maxAttempts <= |failures|
    requires IsPolicyOk(p)
    requires forall j :: 0 <= j < |failures| ==> !IsPermanent(failures[j].perr)
    ensures var outs := FailureRun(p, 0, failures);
            && |outs| == p.maxAttempts && outs[i].RetryAt? && outs[i].attempts == i + 1
            && IsWait(p, i, failures[i].perr, outs[i].next - failures[i].at)
  {
    hide Evaluate, IsWait, FailureRun, IsPermanent, GiveUpAfter;
    TransientRunExhausts(p, 0, failures);
    RunLength(p, 0, failures);
    FailureRunShape(p, 0, failures, i);
    WaitIsRight(p, failures[i], i);
  }

  lemma WaitIsRight(p: Policy, f: Failure, i: nat)
    requires i + 1 < p.maxAttempts && !IsPermanent(f.perr)
    requires IsPolicyOk(p)
    ensures var o := Evaluate(p, f.at, i, f.perr, f.u);
            o.RetryAt? && o.attempts == i + 1 && IsWait(p, i, f.perr, o.next - f.at)
  {
    hide ApplyJitter;
    if p.backoff != [] {
      assert BaseFor(p, i + 1) == ScheduleEntry(p, i);
      JitterWithinRatio(p, ScheduleEntry(p, i), f.u);
    }
  }
}
