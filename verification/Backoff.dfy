/** Restart pacing: the exponential backoff and the streak of restarts it paces. */
module Backoffs {
  import opened Prelude

  const U32_MAX: nat := 0xFFFF_FFFF

  /** The longest `Duration`, in nanoseconds. */
  const DURATION_MAX: nat := 0xFFFF_FFFF_FFFF_FFFF * 1_000_000_000 + 999_999_999

  type Duration = d: nat | d <= DURATION_MAX

  datatype Backoff = Backoff(min: Duration, max: Duration) {
    predicate Valid() {
      min <= max
    }
  }

  /** The only way to a backoff: its bounds are ordered. */
  function New(min: Duration, max: Duration): (r: Result<Backoff, (Duration, Duration)>)
    ensures r.Ok? <==> min <= max
    ensures r.Ok? ==> r.value.Valid() && r.value.min == min && r.value.max == max
  {
    if max < min then Err((min, max)) else Ok(Backoff(min, max))
  }

  function Pow2(n: nat): (p: nat)
    ensures p > n
  {
    if n == 0 then 1 else 2 * Pow2(n - 1)
  }

  /** 1 shifted left by the step, or the largest 32-bit factor where that overflows. */
  function Factor(step: nat): nat {
    if step < 32 then Pow2(step) else U32_MAX
  }

  function SaturatingMul(d: Duration, factor: nat): Duration {
    if d * factor <= DURATION_MAX then d * factor else DURATION_MAX
  }

  function Min(a: nat, b: nat): nat {
    if a <= b then a else b
  }

  /** The delay for the zero-based step. */
  function Delay(b: Backoff, step: nat): Duration {
    Min(SaturatingMul(b.min, Factor(step)), b.max)
  }

  /** The documented delay: `min * 2^step`, capped at `max`. */
  function Documented(b: Backoff, step: nat): nat {
    Min(b.min * Pow2(step), b.max)
  }

  lemma {:induction false} Pow2Monotone(m: nat, n: nat)
    requires m <= n
    ensures Pow2(m) <= Pow2(n)
    decreases n
  {
    if m < n {
      Pow2Monotone(m, n - 1);
    }
  }

  lemma Pow2Of32()
    ensures Pow2(32) == U32_MAX + 1
  {
    assert Pow2(8) == 256;
    assert Pow2(16) == 65536 by {
      assert Pow2(12) == 4096;
    }
    assert Pow2(24) == 16777216 by {
      assert Pow2(20) == 1048576;
    }
    assert Pow2(28) == 268435456;
  }

  lemma MulMonotone(d: nat, f: nat, g: nat)
    requires f <= g
    ensures d * f <= d * g
  {
  }

  lemma FactorMonotone(m: nat, n: nat)
    requires m <= n
    ensures 1 <= Factor(m) <= Factor(n) <= U32_MAX
    ensures n >= 32 ==> Factor(n) < Pow2(n)
  {
    Pow2Of32();
    Pow2Monotone(Min(m, 31), Min(n, 31));
    Pow2Monotone(Min(n, 31), 31);
    assert 2 * Pow2(31) == Pow2(32);
    if n >= 32 {
      Pow2Monotone(32, n);
    }
  }

  /** The cap hides the saturation of the multiplication. */
  lemma DelayClosedForm(b: Backoff, step: nat)
    ensures Delay(b, step) == Min(b.min * Factor(step), b.max)
  {
  }

  /** Delays lie within the bounds and never shrink from one step to a later one. */
  lemma DelayBoundedAndMonotone(b: Backoff, m: nat, n: nat)
    requires b.Valid() && m <= n
    ensures b.min <= Delay(b, m) <= Delay(b, n) <= b.max
  {
    FactorMonotone(m, n);
    MulMonotone(b.min, 1, Factor(m));
    MulMonotone(b.min, Factor(m), Factor(n));
    DelayClosedForm(b, m);
    DelayClosedForm(b, n);
  }

  /**
   * The delay is the documented one exactly for steps below 32, a zero minimum, or a maximum the
   * largest 32-bit factor already reaches.
   */
  lemma DelayIsDocumented(b: Backoff, step: nat)
    ensures Delay(b, step) == Documented(b, step) <==>
      step < 32 || b.min == 0 || b.max <= b.min * U32_MAX
  {
    DelayClosedForm(b, step);
    if step >= 32 {
      FactorMonotone(step, step);
      MulMonotone(b.min, Factor(step) + 1, Pow2(step));
      assert b.min * (Factor(step) + 1) == b.min * Factor(step) + b.min;
    }
  }

  /** A pair of bounds whose 33rd delay is one nanosecond short of the documented one. */
  lemma DelayFallsShort()
    ensures var b := Backoff(1, 0x1_0000_0000);
      b.Valid() && Delay(b, 32) == Documented(b, 32) - 1
  {
    Pow2Of32();
  }

  // ----- the restart streak

  datatype Policy = Policy(maxRestarts: nat, backoff: Backoff, resetAfter: Duration) {
    predicate Valid() {
      0 < maxRestarts <= U32_MAX && backoff.Valid()
    }
  }

  datatype Strategy = Stop | Restart(policy: Policy)

  datatype Verdict = After(delay: Duration) | LimitExceeded | NotConfigured

  /** The run lasted long enough to end the streak; a failed initialization has no uptime. */
  predicate EndsStreak(policy: Policy, uptime: Option<nat>) {
    uptime.Some? && uptime.value >= policy.resetAfter
  }

  /** The task's restart counter. */
  class RestartCounter {
    var restarts: nat

    constructor ()
      ensures restarts == 0
    {
      restarts := 0;
    }

    method NextRestart(strategy: Strategy, uptime: Option<nat>) returns (verdict: Verdict)
      requires strategy.Restart? ==> strategy.policy.Valid() && restarts <= strategy.policy.maxRestarts
      modifies this
      ensures strategy.Stop? ==> verdict == NotConfigured && restarts == old(restarts)
      ensures strategy.Restart? ==>
        verdict == Judged(strategy.policy, old(restarts), uptime) &&
        restarts == Counted(strategy.policy, old(restarts), uptime) <= strategy.policy.maxRestarts
    {
      if strategy.Stop? {
        return NotConfigured;
      }
      var policy := strategy.policy;
      if uptime.Some? && uptime.value >= policy.resetAfter {
        restarts := 0;
      }
      if restarts >= policy.maxRestarts {
        return LimitExceeded;
      }
      var delay := Delay(policy.backoff, restarts);
      restarts := restarts + 1;
      return After(delay);
    }
  }

  function Streak(policy: Policy, restarts: nat, uptime: Option<nat>): nat {
    if EndsStreak(policy, uptime) then 0 else restarts
  }

  function Judged(policy: Policy, restarts: nat, uptime: Option<nat>): Verdict {
    var streak := Streak(policy, restarts, uptime);
    if streak >= policy.maxRestarts then LimitExceeded else After(Delay(policy.backoff, streak))
  }

  function Counted(policy: Policy, restarts: nat, uptime: Option<nat>): nat {
    var streak := Streak(policy, restarts, uptime);
    if streak >= policy.maxRestarts then streak else streak + 1
  }

  /** The counter after a history of failures, each with the uptime before it. */
  function Counter(policy: Policy, failures: seq<Option<nat>>): nat {
    if failures == [] then 0
    else Counted(policy, Counter(policy, failures[..|failures| - 1]), failures[|failures| - 1])
  }

  /** The verdict on the last failure of a history. */
  function Verdicts(policy: Policy, failures: seq<Option<nat>>): Verdict
    requires failures != []
  {
    Judged(policy, Counter(policy, failures[..|failures| - 1]), failures[|failures| - 1])
  }

  /**
   * Failures since the last one after a run of at least `reset_after`, that one included. A run
   * whose initialization failed has no uptime and never ends a streak.
   */
  ghost function SinceReset(policy: Policy, failures: seq<Option<nat>>): (n: nat)
    ensures n <= |failures|
    ensures forall k | |failures| - n < k < |failures| ::
      failures[k].Some? ==> failures[k].value < policy.resetAfter
    ensures 0 < n < |failures| ==>
      failures[|failures| - n].Some? && failures[|failures| - n].value >= policy.resetAfter
    ensures failures != [] ==> n > 0
  {
    if failures == [] then 0
    else if EndsStreak(policy, failures[|failures| - 1]) then 1
    else SinceReset(policy, failures[..|failures| - 1]) + 1
  }

  /** Over any failure history the counter is the length of the streak, capped at the limit: it cannot overflow. */
  lemma {:induction false} CounterIsStreak(policy: Policy, failures: seq<Option<nat>>)
    requires policy.Valid()
    ensures Counter(policy, failures) == Min(SinceReset(policy, failures), policy.maxRestarts) <= U32_MAX
    decreases |failures|
  {
    if failures != [] {
      CounterIsStreak(policy, failures[..|failures| - 1]);
    }
  }

  /**
   * The n-th failure of a streak is answered by a restart after the (n-1)-th backoff delay while n
   * is within the limit, and by stopping from then on: at most `max_restarts` restarts per streak.
   */
  lemma StreakIsLimitedAndPaced(policy: Policy, failures: seq<Option<nat>>)
    requires policy.Valid() && failures != []
    ensures var n := SinceReset(policy, failures);
      n > 0 && Verdicts(policy, failures) ==
        if n <= policy.maxRestarts then After(Delay(policy.backoff, n - 1)) else LimitExceeded
  {
    CounterIsStreak(policy, failures[..|failures| - 1]);
  }
}
