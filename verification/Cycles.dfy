/** The endurance loop: the module set repeats until another pass would not fit its target. */
module CycleLoop {
  import opened Prelude
  import Preflight
  import Watchdog

  const NANOS: nat := 1_000_000_000

  /** Nanoseconds after `k` cycles, when cycle `i` takes `time(i)`. */
  function Elapsed(time: nat -> nat, k: nat): nat {
    if k == 0 then 0 else Elapsed(time, k - 1) + time(k - 1)
  }

  /** Where one more cycle of the mean length so far would end; integer division, as on durations. */
  function Projected(elapsed: nat, cycles: nat): (end: nat)
    requires cycles > 0
    ensures end >= elapsed
  {
    elapsed + elapsed / cycles
  }

  /** Whether the run ends after its `k`-th cycle. */
  predicate StopsAfter(target: Option<nat>, time: nat -> nat, cancelled: nat -> bool, k: nat) {
    || target.None?
    || cancelled(k)
    || (k >= Preflight.MIN_ENDURANCE_CYCLES && Projected(Elapsed(time, k), k) > target.value)
  }

  /** `k` is the number of cycles the run makes. */
  predicate MakesCycles(target: Option<nat>, time: nat -> nat, cancelled: nat -> bool, k: nat) {
    && k >= 1
    && StopsAfter(target, time, cancelled, k)
    && forall j :: 1 <= j < k ==> !StopsAfter(target, time, cancelled, j)
  }

  /** A cycle takes at least a nanosecond, so every target is eventually exceeded. */
  method RunCycles(target: Option<nat>, time: nat -> nat, cancelled: nat -> bool) returns (cycles: nat, elapsed: nat)
    requires forall i :: time(i) > 0
    ensures MakesCycles(target, time, cancelled, cycles)
    ensures elapsed == Elapsed(time, cycles)
  {
    cycles, elapsed := 0, 0;
    while true
      invariant elapsed == Elapsed(time, cycles) && cycles <= elapsed
      invariant forall j :: 1 <= j <= cycles ==> !StopsAfter(target, time, cancelled, j)
      invariant cycles >= 2 ==> target.Some? && elapsed <= target.value
      decreases target.Or(0) + 2 - cycles
    {
      elapsed := elapsed + time(cycles);
      cycles := cycles + 1;
      if target.None? {
        break;
      }
      if cancelled(cycles) {
        break;
      }
      if cycles < Preflight.MIN_ENDURANCE_CYCLES {
        continue;
      }
      var projected := Projected(elapsed, cycles);
      if projected > target.value {
        break;
      }
    }
  }

  lemma UncancelledRunMakesTwo(target: nat, time: nat -> nat, cancelled: nat -> bool, k: nat)
    requires MakesCycles(Some(target), time, cancelled, k)
    requires forall j :: !cancelled(j)
    ensures k >= 2
    ensures Projected(Elapsed(time, k), k) > target
  {
  }

  lemma {:induction false} ConstantElapsed(time: nat -> nat, p: nat, k: nat)
    requires forall i :: time(i) == p
    ensures Elapsed(time, k) == k * p
  {
    if k > 0 {
      ConstantElapsed(time, p, k - 1);
    }
  }

  lemma ConstantProjection(time: nat -> nat, p: nat, k: nat)
    requires (forall i :: time(i) == p) && k > 0
    ensures Projected(Elapsed(time, k), k) == (k + 1) * p
  {
    ConstantElapsed(time, p, k);
    DivisionIs(k * p, k, p);
  }

  lemma DivisionIs(n: nat, d: nat, q: nat)
    requires d > 0 && q * d <= n < q * d + d
    ensures n / d == q
  {
    var r := n / d;
    FitsIff(n, d, q);
    FitsIff(n, d, q + 1);
    assert (q + 1) * d == q * d + d;
  }

  lemma FitsIff(target: nat, p: nat, m: nat)
    requires p > 0
    ensures m * p > target <==> m > target / p
  {
    var q := target / p;
    assert (q + 1) * p == q * p + p;
    assert q * p <= target < q * p + p;
    if m > q {
      Multiply(q + 1, m, p);
    } else {
      Multiply(m, q, p);
    }
  }

  lemma NestedDivision(n: nat, a: nat, b: nat)
    requires a > 0 && b > 0
    ensures n / a / b == n / (b * a)
  {
    var q := n / a / b;
    NestedBounds(n, a, b, q);
    DivisionIs(n, b * a, q);
  }

  lemma QuotientBounds(m: nat, b: nat)
    requires b > 0
    ensures m / b * b <= m < m / b * b + b
  {
  }

  lemma NestedBounds(n: nat, a: nat, b: nat, q: nat)
    requires a > 0 && b > 0 && q == n / a / b
    ensures b * a > 0 && q * (b * a) <= n < q * (b * a) + b * a
  {
    QuotientBounds(n / a, b);
    FitsIff(n, a, q * b);
    FitsIff(n, a, q * b + b);
    Split(q, b, a);
    Multiply(1, b, a);
  }

  lemma Split(q: nat, b: nat, a: nat)
    ensures q * b * a == q * (b * a)
    ensures (q * b + b) * a == q * (b * a) + b * a
  {
    assert (q * b + b) * a == q * b * a + b * a;
  }

  /** With cycles of a constant whole number of seconds, the run makes exactly the cycles preflight disclosed. */
  lemma RunMakesTheDisclosedCycles(targetNanos: nat, passSeconds: nat, time: nat -> nat, cancelled: nat -> bool, k: nat)
    requires passSeconds > 0
    requires forall i :: time(i) == passSeconds * NANOS
    requires forall j :: !cancelled(j)
    requires MakesCycles(Some(targetNanos), time, cancelled, k)
    ensures k == Preflight.Cycles(Some(targetNanos / NANOS), passSeconds)
  {
    var p := passSeconds * NANOS;
    NestedDivision(targetNanos, NANOS, passSeconds);
    ConstantProjection(time, p, k);
    FitsIff(targetNanos, p, k + 1);
    if k > 2 {
      assert !StopsAfter(Some(targetNanos), time, cancelled, k - 1);
      ConstantProjection(time, p, k - 1);
      FitsIff(targetNanos, p, k);
    }
  }

  lemma {:induction false} ElapsedGrows(time: nat -> nat, j: nat, k: nat)
    requires j <= k
    ensures Elapsed(time, j) <= Elapsed(time, k)
    decreases k
  {
    if j < k {
      ElapsedGrows(time, j, k - 1);
    }
  }

  lemma MeanBound(t: nat, e: nat, c: nat)
    requires c > 0 && t * c <= e
    ensures t <= e / c
  {
    FitsIff(e, c, t);
  }

  /**
   If no cycle after the second outlasts the mean of those before it, the run ends
   by the later of its target and cycle two.
  */
  lemma RunEndsByItsTarget(target: nat, time: nat -> nat, cancelled: nat -> bool, k: nat)
    requires MakesCycles(Some(target), time, cancelled, k)
    requires forall c :: c >= 2 ==> time(c) * c <= Elapsed(time, c)
    ensures Elapsed(time, k) <= Max(target, Elapsed(time, 2))
  {
    if k > 2 {
      var c := k - 1;
      assert !StopsAfter(Some(target), time, cancelled, c);
      assert time(c) * c <= Elapsed(time, c);
      MeanBound(time(c), Elapsed(time, c), c);
    } else {
      ElapsedGrows(time, k, 2);
    }
  }

  lemma CeilingCoversTarget(targetSeconds: nat)
    requires targetSeconds <= Watchdog.ENDURANCE_MAX_MINUTES * 60
    ensures targetSeconds + Min(targetSeconds, 3600) <= Watchdog.HardRuntimeCeiling(Some(targetSeconds))
    ensures Watchdog.HardRuntimeCeiling(Some(targetSeconds)) <= Watchdog.ENDURANCE_MAX_MINUTES * 60 + 3600
  {
  }

  /**
   So the runtime ceiling never stops a run that keeps to its pace and whose first
   two cycles fit its target, when what the run did `before` its first cycle,
   which the ceiling counts too, took no longer than the target or an hour.
  */
  lemma CeilingSparesPunctualRuns(
    targetSeconds: nat, before: nat, time: nat -> nat, cancelled: nat -> bool, k: nat)
    requires targetSeconds <= Watchdog.ENDURANCE_MAX_MINUTES * 60
    requires before <= Min(targetSeconds, 3600) * NANOS
    requires MakesCycles(Some(targetSeconds * NANOS), time, cancelled, k)
    requires forall c :: c >= 2 ==> time(c) * c <= Elapsed(time, c)
    requires Elapsed(time, 2) <= targetSeconds * NANOS
    ensures before + Elapsed(time, k) <= Watchdog.HardRuntimeCeiling(Some(targetSeconds)) * NANOS
  {
    RunEndsByItsTarget(targetSeconds * NANOS, time, cancelled, k);
    CeilingCoversTarget(targetSeconds);
  }

  lemma {:induction false} ElapsedAtLeast(time: nat -> nat, m: nat, k: nat)
    requires forall i :: time(i) >= m
    ensures Elapsed(time, k) >= k * m
  {
    if k > 0 {
      ElapsedAtLeast(time, m, k - 1);
    }
  }

  /**
   The 32-bit cycle counter cannot overflow on the longest permitted target unless
   cycles take under 21 microseconds.
  */
  lemma CycleCounterFits(target: nat, time: nat -> nat, cancelled: nat -> bool, k: nat)
    requires target <= 24 * 60 * 60 * NANOS
    requires forall i :: time(i) >= 20_200
    requires MakesCycles(Some(target), time, cancelled, k)
    ensures k < 0x1_0000_0000
  {
    if k > 2 {
      assert !StopsAfter(Some(target), time, cancelled, k - 1);
      ElapsedAtLeast(time, 20_200, k - 1);
    }
  }
}
