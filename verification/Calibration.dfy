/**
 The calibration search of the measurement harness, over exact reals: floating
 point rounding is not modelled.
*/
module Calibration {
  import opened Prelude

  const MAX_CALIBRATION_ITERATIONS: nat := 16777216
  const MAX_CALIBRATION_GROWTH: real := 16.0

  datatype Result = Cancelled | Iterations(count: nat)

  function MaxReal(a: real, b: real): real {
    if a >= b then a else b
  }

  function ClampReal(x: real, lo: real, hi: real): real {
    if x < lo then lo else if x > hi then hi else x
  }

  function ClampNat(n: nat, lo: nat, hi: nat): nat {
    if n < lo then lo else if n > hi then hi else n
  }

  /** `x as u64` for a float: towards zero, saturating at both ends. */
  function ToU64(x: real): nat {
    if x <= 0.0 then 0 else Saturate(x.Floor)
  }

  /** Rounds half away from zero; only non-negative arguments arise. */
  function Round(x: real): real {
    (x + 0.5).Floor as real
  }

  /** Once a reading can be trusted, the count is extrapolated linearly. */
  function Extrapolate(target: real, iterations: nat, elapsedMs: real): nat {
    var scale := target / MaxReal(elapsedMs, 0.001);
    ClampNat(ToU64(Round(iterations as real * scale)), 1, MAX_CALIBRATION_ITERATIONS)
  }

  /** How much larger the next probe is made: at least twice, at most sixteen times. */
  function Growth(trustworthy: real, elapsedMs: real): (growth: real)
    ensures 2.0 <= growth <= MAX_CALIBRATION_GROWTH
  {
    if elapsedMs > 0.0 then ClampReal(trustworthy / elapsedMs, 2.0, MAX_CALIBRATION_GROWTH)
    else MAX_CALIBRATION_GROWTH
  }

  function Grown(iterations: nat, growth: real): nat {
    Min(Max(ToU64(iterations as real * growth), Saturate(iterations + 1)), MAX_CALIBRATION_ITERATIONS)
  }

  /** The next probe after one that was too short to trust. */
  function Next(trustworthy: real, iterations: nat, elapsedMs: real): nat {
    Grown(iterations, Growth(trustworthy, elapsedMs))
  }

  /** `probe(k, n)` is the reading of the `k`-th probe, run with `n` iterations. */
  type Probe = (nat, nat) -> real

  function Power(base: nat, e: nat): nat {
    if e == 0 then 1 else base * Power(base, e - 1)
  }

  lemma Scaled(a: real, b: real, c: real)
    requires c > 0.0
    ensures a <= b <==> a * c <= b * c
  {
    if a <= b {
      assert (b - a) * c >= 0.0;
    } else {
      assert (a - b) * c > 0.0;
    }
  }

  /** The growth step once its product is known to lie between two and sixteen times the count. */
  lemma GrownIs(x: real, n: nat)
    requires 1 <= n < MAX_CALIBRATION_ITERATIONS
    requires (2 * n) as real <= x <= (16 * n) as real
    ensures 2 * n <= x.Floor <= 16 * n
    ensures Min(Max(ToU64(x), Saturate(n + 1)), MAX_CALIBRATION_ITERATIONS) == Min(x.Floor, MAX_CALIBRATION_ITERATIONS)
  {
  }

  lemma ProductBounds(n: nat, g: real)
    requires n >= 1 && 2.0 <= g <= 16.0
    ensures (2 * n) as real <= n as real * g <= (16 * n) as real
  {
    var m := n as real;
    Scaled(2.0, g, m);
    Scaled(g, 16.0, m);
    assert m * g == g * m && (2 * n) as real == 2.0 * m && (16 * n) as real == 16.0 * m;
  }

  lemma GrownBounds(n: nat, g: real)
    requires 1 <= n < MAX_CALIBRATION_ITERATIONS && 2.0 <= g <= 16.0
    ensures 2 * n <= (n as real * g).Floor <= 16 * n
    ensures Grown(n, g) == Min((n as real * g).Floor, MAX_CALIBRATION_ITERATIONS)
  {
    ProductBounds(n, g);
    GrownIs(n as real * g, n);
  }

  lemma {:induction false} PowersOfTwo(k: nat)
    requires k >= 24
    ensures Power(2, k) >= MAX_CALIBRATION_ITERATIONS
  {
    if k == 24 {
      assert Power(2, 4) == 16;
      assert Power(2, 8) == 256;
      assert Power(2, 12) == 4096;
      assert Power(2, 16) == 65536;
      assert Power(2, 20) == 1048576;
      assert Power(2, 24) == 16777216;
    } else {
      PowersOfTwo(k - 1);
    }
  }

  /** The search goes on after a probe that was too short, unless it was already as large as permitted. */
  predicate Continues(target: real, n: nat, elapsedMs: real) {
    elapsedMs < target / 4.0 && n < MAX_CALIBRATION_ITERATIONS
  }

  /** Probe `k` was made because the one before it asked for it. */
  ghost predicate Follows(target: real, probe: Probe, sizes: seq<nat>, k: nat)
    requires 0 < k < |sizes|
  {
    && Continues(target, sizes[k - 1], probe(k - 1, sizes[k - 1]))
    && sizes[k] == Next(target / 4.0, sizes[k - 1], probe(k - 1, sizes[k - 1]))
  }

  /** The iteration counts of a search: from one, each following from the reading before it. */
  ghost predicate Trace(target: real, probe: Probe, sizes: seq<nat>) {
    && (sizes != [] ==> sizes[0] == 1)
    && (forall k :: 0 <= k < |sizes| ==> 1 <= sizes[k] <= MAX_CALIBRATION_ITERATIONS)
    && (forall k :: 0 < k < |sizes| ==> Follows(target, probe, sizes, k))
  }

  lemma TraceExtends(target: real, probe: Probe, sizes: seq<nat>, next: nat)
    requires Trace(target, probe, sizes) && sizes != []
    requires var n := sizes[|sizes| - 1];
             var reading := probe(|sizes| - 1, n);
             Continues(target, n, reading) && next == Next(target / 4.0, n, reading)
    ensures Trace(target, probe, sizes + [next])
    ensures next >= Min(2 * sizes[|sizes| - 1], MAX_CALIBRATION_ITERATIONS)
  {
    var longer := sizes + [next];
    var n := sizes[|sizes| - 1];
    GrownBounds(n, Growth(target / 4.0, probe(|sizes| - 1, n)));
    forall k | 0 < k < |longer|
      ensures Follows(target, probe, longer, k)
    {
      if k < |sizes| {
        assert Follows(target, probe, sizes, k);
      }
    }
  }

  lemma TracePrefix(target: real, probe: Probe, sizes: seq<nat>, k: nat)
    requires Trace(target, probe, sizes) && k <= |sizes|
    ensures Trace(target, probe, sizes[..k])
  {
    forall j | 0 < j < k
      ensures Follows(target, probe, sizes[..k], j)
    {
      assert Follows(target, probe, sizes, j);
    }
  }

  /** What the last probe makes the search return. */
  function Answer(target: real, n: nat, elapsedMs: real): nat {
    if elapsedMs >= target / 4.0 then Extrapolate(target, n, elapsedMs) else MAX_CALIBRATION_ITERATIONS
  }

  /** The search stopped of its own accord, with this answer. */
  ghost predicate Finished(target: real, probe: Probe, sizes: seq<nat>, count: nat) {
    && sizes != []
    && var n := sizes[|sizes| - 1];
       var reading := probe(|sizes| - 1, n);
       !Continues(target, n, reading) && count == Answer(target, n, reading)
  }

  /** The search; `sizes` records its probes. Whatever the readings, there are at most 25. */
  method CalibrateWith(targetMs: nat, cancelled: nat -> bool, probe: Probe) returns (result: Result, sizes: seq<nat>)
    ensures |sizes| <= 25 && Trace(targetMs as real, probe, sizes)
    ensures result.Cancelled? ==> cancelled(|sizes|)
    ensures result.Iterations? ==> 1 <= result.count <= MAX_CALIBRATION_ITERATIONS
    ensures result.Iterations? ==> Finished(targetMs as real, probe, sizes, result.count)
  {
    var target := targetMs as real;
    var trustworthy := target / 4.0;
    var iterations := 1;
    sizes := [];
    while true
      invariant |sizes| <= 24 && 1 <= iterations <= MAX_CALIBRATION_ITERATIONS
      invariant iterations >= Min(Power(2, |sizes|), MAX_CALIBRATION_ITERATIONS)
      invariant Trace(target, probe, sizes + [iterations])
      decreases 25 - |sizes|
    {
      if cancelled(|sizes|) {
        TracePrefix(target, probe, sizes + [iterations], |sizes|);
        assert (sizes + [iterations])[..|sizes|] == sizes;
        return Cancelled, sizes;
      }
      var elapsedMs := probe(|sizes|, iterations);
      sizes := sizes + [iterations];
      if elapsedMs >= trustworthy {
        return Iterations(Extrapolate(target, iterations, elapsedMs)), sizes;
      }
      if |sizes| == 25 {
        PowersOfTwo(24);
      }
      if iterations >= MAX_CALIBRATION_ITERATIONS {
        return Iterations(MAX_CALIBRATION_ITERATIONS), sizes;
      }
      var next := Next(trustworthy, iterations, elapsedMs);
      TraceExtends(target, probe, sizes, next);
      iterations := next;
    }
  }

  // ----- a workload of constant cost per iteration ----------------------------------

  /** What `n` iterations take when each takes `cost`. */
  ghost function Cost(n: nat, cost: real): real {
    if n == 0 then 0.0 else Cost(n - 1, cost) + cost
  }

  ghost predicate Linear(probe: Probe, cost: real) {
    forall k, n :: probe(k, n) == Cost(n, cost)
  }

  lemma {:induction false} CostIs(n: nat, cost: real)
    ensures Cost(n, cost) == n as real * cost
  {
    if n > 0 {
      CostIs(n - 1, cost);
      assert (n - 1) as real * cost + cost == n as real * cost;
    }
  }

  lemma {:induction false} CostGrows(m: nat, n: nat, cost: real)
    requires m <= n && cost > 0.0
    ensures Cost(m, cost) <= Cost(n, cost)
    decreases n
  {
    if m < n {
      CostGrows(m, n - 1, cost);
    }
  }

  lemma Quotient(trust: real, elapsed: real, g: real)
    requires elapsed > 0.0
    ensures trust / elapsed >= g <==> trust >= g * elapsed
    ensures trust / elapsed * elapsed == trust
  {
    var q := trust / elapsed;
    assert q * elapsed == trust;
    Scaled(g, q, elapsed);
  }

  lemma GrowthFacts(trust: real, elapsed: real)
    requires 0.0 < elapsed < trust
    ensures var g := Growth(trust, elapsed);
            && (trust >= 16.0 * elapsed ==> g == 16.0)
            && (trust < 16.0 * elapsed ==> g * elapsed >= trust)
            && g * elapsed < 2.0 * trust
  {
    Quotient(trust, elapsed, 16.0);
    Quotient(trust, elapsed, 2.0);
  }

  /** Growing `n` by `g` where each iteration costs `cost`: rounding down loses less than one iteration. */
  lemma GrownCost(n: nat, g: real, cost: real)
    requires cost > 0.0 && 1 <= n < MAX_CALIBRATION_ITERATIONS && 2.0 <= g <= 16.0
    ensures var next := Grown(n, g);
            && Cost(next, cost) <= g * Cost(n, cost)
            && (next == MAX_CALIBRATION_ITERATIONS || Cost(next + 1, cost) > g * Cost(n, cost))
  {
    GrownBounds(n, g);
    CostIs(n, cost);
    ScaledFloor(n as real * g, Grown(n, g), cost);
    Reassociate(n as real, g, cost);
  }

  lemma ScaledFloor(x: real, next: nat, cost: real)
    requires cost > 0.0 && x >= 0.0
    requires next == Min(x.Floor, MAX_CALIBRATION_ITERATIONS)
    ensures Cost(next, cost) <= x * cost
    ensures next == MAX_CALIBRATION_ITERATIONS || Cost(next + 1, cost) > x * cost
  {
    CostIs(next, cost);
    CostIs(next + 1, cost);
    ScaledUp(next as real, x, cost, Cost(next, cost), x * cost);
    if next != MAX_CALIBRATION_ITERATIONS {
      ScaledStrictly(x, (next + 1) as real, cost, Cost(next + 1, cost));
    }
  }

  lemma ScaledUp(a: real, b: real, c: real, ac: real, bc: real)
    requires c > 0.0 && a <= b && ac == a * c && bc == b * c
    ensures ac <= bc
  {
    Scaled(a, b, c);
  }

  lemma ScaledStrictly(a: real, b: real, c: real, product: real)
    requires c > 0.0 && a < b && product == b * c
    ensures a * c < product
  {
    Scaled(b, a, c);
  }

  lemma Reassociate(a: real, b: real, c: real)
    ensures a * b * c == b * (a * c)
  {
  }

  lemma CostPositive(n: nat, cost: real)
    requires n >= 1 && cost > 0.0
    ensures Cost(n, cost) >= cost
  {
    CostGrows(0, n - 1, cost);
  }

  /** Far below the trusted duration, the next probe is sixteen times as large. */
  lemma FarNext(trust: real, cost: real, n: nat)
    requires cost > 0.0 && 1 <= n < MAX_CALIBRATION_ITERATIONS && trust >= 16.0 * Cost(n, cost)
    ensures Next(trust, n, Cost(n, cost)) == Min(16 * n, MAX_CALIBRATION_ITERATIONS)
  {
    CostPositive(n, cost);
    GrowthFacts(trust, Cost(n, cost));
    GrownBounds(n, 16.0);
    assert n as real * 16.0 == (16 * n) as real;
  }

  lemma NextAtLeastDoubles(trust: real, n: nat, elapsed: real)
    requires 1 <= n < MAX_CALIBRATION_ITERATIONS
    ensures Next(trust, n, elapsed) >= Min(2 * n, MAX_CALIBRATION_ITERATIONS)
  {
    GrownBounds(n, Growth(trust, elapsed));
  }

  /** Otherwise it falls less than one iteration short of it, and in no case reaches twice as far. */
  lemma NearNext(trust: real, cost: real, n: nat)
    requires cost > 0.0 && 1 <= n < MAX_CALIBRATION_ITERATIONS && Cost(n, cost) < trust
    ensures var next := Next(trust, n, Cost(n, cost));
            && (trust < 16.0 * Cost(n, cost) ==> next == MAX_CALIBRATION_ITERATIONS || Cost(next + 1, cost) > trust)
            && Cost(next, cost) < 2.0 * trust
  {
    CostPositive(n, cost);
    Bridge(trust, Cost(n, cost), Growth(trust, Cost(n, cost)), n, cost);
  }

  lemma Bridge(trust: real, elapsed: real, g: real, n: nat, cost: real)
    requires cost > 0.0 && 1 <= n < MAX_CALIBRATION_ITERATIONS
    requires elapsed == Cost(n, cost) && 0.0 < elapsed < trust && g == Growth(trust, elapsed)
    ensures trust < 16.0 * elapsed ==> Grown(n, g) == MAX_CALIBRATION_ITERATIONS || Cost(Grown(n, g) + 1, cost) > trust
    ensures Cost(Grown(n, g), cost) < 2.0 * trust
  {
    var reach := g * elapsed;
    GrowthFacts(trust, elapsed);
    GrownCost(n, g, cost);
  }

  /** `n` is too short to trust and can still grow. */
  ghost predicate Short(trust: real, cost: real, n: nat) {
    1 <= n < MAX_CALIBRATION_ITERATIONS && Cost(n, cost) < trust
  }

  /** Three probes in a row can all be too short only while the first is still under a sixteenth of what is trusted. */
  lemma ThreeShortProbes(trust: real, cost: real, n: nat, n': nat, n'': nat)
    requires cost > 0.0 && Short(trust, cost, n) && Short(trust, cost, n') && Short(trust, cost, n'')
    requires n' == Next(trust, n, Cost(n, cost)) && n'' == Next(trust, n', Cost(n', cost))
    ensures n' == 16 * n
  {
    if trust >= 16.0 * Cost(n, cost) {
      FarNext(trust, cost, n);
    } else {
      NearNext(trust, cost, n);
      NextAtLeastDoubles(trust, n, Cost(n, cost));
      NextAtLeastDoubles(trust, n', Cost(n', cost));
      CostGrows(n' + 1, n'', cost);
      assert false;
    }
  }

  /** Probe `k` of a linear workload, when there was another after it. */
  lemma LinearFollows(target: real, cost: real, probe: Probe, sizes: seq<nat>, k: nat)
    requires Linear(probe, cost) && Trace(target, probe, sizes) && k + 1 < |sizes|
    ensures Short(target / 4.0, cost, sizes[k])
    ensures sizes[k + 1] == Next(target / 4.0, sizes[k], Cost(sizes[k], cost))
  {
    assert Follows(target, probe, sizes, k + 1);
    assert probe(k, sizes[k]) == Cost(sizes[k], cost);
  }

  lemma {:induction false} SixteenfoldSizes(target: real, cost: real, probe: Probe, sizes: seq<nat>, k: nat)
    requires cost > 0.0 && Linear(probe, cost) && Trace(target, probe, sizes)
    requires k + 2 < |sizes|
    ensures sizes[k] == Power(16, k)
  {
    if k > 0 {
      SixteenfoldSizes(target, cost, probe, sizes, k - 1);
      LinearFollows(target, cost, probe, sizes, k - 1);
      LinearFollows(target, cost, probe, sizes, k);
      LinearFollows(target, cost, probe, sizes, k + 1);
      ThreeShortProbes(target / 4.0, cost, sizes[k - 1], sizes[k], sizes[k + 1]);
    }
  }

  lemma SixteenToTheSixth()
    ensures Power(16, 6) == MAX_CALIBRATION_ITERATIONS
  {
    assert Power(16, 2) == 256 && Power(16, 4) == 65536;
  }

  /** A workload of constant cost is sized within eight probes. */
  lemma LinearProbeBound(target: real, cost: real, probe: Probe, sizes: seq<nat>)
    requires cost > 0.0 && Linear(probe, cost) && Trace(target, probe, sizes)
    ensures |sizes| <= 8
  {
    if |sizes| >= 9 {
      SixteenfoldSizes(target, cost, probe, sizes, 6);
      SixteenToTheSixth();
      LinearFollows(target, cost, probe, sizes, 6);
      assert false;
    }
  }

  /** No probe but the first takes half the target. */
  lemma LinearProbesStayShort(target: real, cost: real, probe: Probe, sizes: seq<nat>, k: nat)
    requires cost > 0.0 && Linear(probe, cost) && Trace(target, probe, sizes) && 0 < k < |sizes|
    ensures probe(k, sizes[k]) < target / 2.0
  {
    LinearFollows(target, cost, probe, sizes, k - 1);
    NearNext(target / 4.0, cost, sizes[k - 1]);
  }

  /** The count a linear workload deserves: the target divided by the cost, rounded, within the permitted range. */
  function Ideal(target: real, cost: real): nat
    requires cost > 0.0
  {
    ClampNat(ToU64(Round(target / cost)), 1, MAX_CALIBRATION_ITERATIONS)
  }

  lemma ExtrapolationIsIdeal(target: real, cost: real, n: nat)
    requires target >= 1.0 && cost > 0.0 && n >= 1 && Cost(n, cost) >= target / 4.0
    ensures Extrapolate(target, n, Cost(n, cost)) == Ideal(target, cost)
  {
    CostIs(n, cost);
    SameExtrapolation(target, cost, n as real, Cost(n, cost));
  }

  lemma SameExtrapolation(target: real, cost: real, n: real, elapsed: real)
    requires cost > 0.0 && n > 0.0 && elapsed == n * cost && elapsed > 0.0
    ensures n * (target / elapsed) == target / cost
  {
    var scale := target / elapsed;
    assert scale * elapsed == target;
    Reassociate(n, scale, cost);
    SameProduct(n * scale, target / cost, cost);
  }

  lemma SameProduct(a: real, b: real, c: real)
    requires c > 0.0 && a * c == b * c
    ensures a == b
  {
    Scaled(a, b, c);
    Scaled(b, a, c);
  }

  /** A search that ran out of iterations was asked for more than it may use. */
  lemma CappedIsIdeal(target: real, cost: real)
    requires cost > 0.0 && Cost(MAX_CALIBRATION_ITERATIONS, cost) < target
    ensures Ideal(target, cost) == MAX_CALIBRATION_ITERATIONS
  {
    var cap := MAX_CALIBRATION_ITERATIONS as real;
    CostIs(MAX_CALIBRATION_ITERATIONS, cost);
    Quotient(target, cost, cap);
    AtLeastCap(target / cost);
  }

  lemma AtLeastCap(q: real)
    requires q >= MAX_CALIBRATION_ITERATIONS as real
    ensures ClampNat(ToU64(Round(q)), 1, MAX_CALIBRATION_ITERATIONS) == MAX_CALIBRATION_ITERATIONS
  {
  }

  /** For every linear workload the search returns exactly the ideal count, however its probes went. */
  lemma LinearAnswerIsIdeal(target: real, cost: real, probe: Probe, sizes: seq<nat>, count: nat)
    requires target >= 1.0 && cost > 0.0 && Linear(probe, cost)
    requires Trace(target, probe, sizes) && Finished(target, probe, sizes, count)
    ensures count == Ideal(target, cost)
  {
    var n := sizes[|sizes| - 1];
    assert probe(|sizes| - 1, n) == Cost(n, cost);
    if Cost(n, cost) >= target / 4.0 {
      ExtrapolationIsIdeal(target, cost, n);
    } else {
      CappedIsIdeal(target, cost);
    }
  }

  lemma RoundIsNearest(q: real)
    requires 0.5 <= q < (MAX_CALIBRATION_ITERATIONS as real) + 0.5
    ensures var r := ClampNat(ToU64(Round(q)), 1, MAX_CALIBRATION_ITERATIONS);
            q - 0.5 <= r as real <= q + 0.5
  {
  }

  /** So unless it is clamped, the repetition it sizes misses the target by at most half an iteration. */
  lemma IdealIsClose(target: real, cost: real)
    requires target >= 1.0 && cost > 0.0
    requires 0.5 <= target / cost < (MAX_CALIBRATION_ITERATIONS as real) + 0.5
    ensures target - cost / 2.0 <= Cost(Ideal(target, cost), cost) <= target + cost / 2.0
  {
    var q, r := target / cost, Ideal(target, cost);
    RoundIsNearest(q);
    Quotient(target, cost, 0.0);
    CostNear(target, cost, q, r);
  }

  lemma CostNear(target: real, cost: real, q: real, r: nat)
    requires cost > 0.0 && q * cost == target && q - 0.5 <= r as real <= q + 0.5
    ensures target - cost / 2.0 <= Cost(r, cost) <= target + cost / 2.0
  {
    CostIs(r, cost);
    HalfEitherSide(q, r as real, cost, target, Cost(r, cost));
  }

  lemma HalfEitherSide(q: real, r: real, cost: real, target: real, product: real)
    requires cost > 0.0 && q - 0.5 <= r <= q + 0.5
    requires q * cost == target && r * cost == product
    ensures target - cost / 2.0 <= product <= target + cost / 2.0
  {
    ScaledUp(q - 0.5, r, cost, (q - 0.5) * cost, product);
    ScaledUp(r, q + 0.5, cost, product, (q + 0.5) * cost);
    assert (q - 0.5) * cost == target - 0.5 * cost;
    assert (q + 0.5) * cost == target + 0.5 * cost;
  }
}
