/**
 The comparison of two runs from the index, one metric at a time. Values are exact reals, so a ratio
 of two positive values is always finite.
*/
module Comparison {
  import opened Prelude

  datatype Direction = HigherIsBetter | LowerIsBetter

  datatype Metric = Metric(value: real, unit: string, direction: Direction)

  /** `metrics` holds cycle 0 keyed by module and metric; `baskets` the modules behind each category. */
  datatype Run = Run(
    environment: string, scoringModel: string, profile: string, buildTarget: string, agentVersion: string,
    metrics: map<string, Metric>, baskets: map<string, set<string>>)

  datatype Delta = Delta(key: string, baseline: real, candidate: real, ratio: real)

  datatype Reason = BaselineOnly | NotPositive | CandidateOnly

  datatype Unmatched = Unmatched(key: string, reason: Reason)

  datatype Gap =
    | Environment | ScoringModel(string, string) | Profile(string, string) | Cycled
    | BuildTarget(string, string) | AgentVersion(string, string) | Basket(key: string, set<string>, set<string>)

  datatype Result = Result(metrics: seq<Delta>, unmatched: seq<Unmatched>, comparable: bool, reasons: seq<Gap>)

  /** Candidate relative to baseline, adjusted so that above one always means better. */
  function Ratio(left: Metric, right: Metric): real
    requires left.value > 0.0 && right.value > 0.0
  {
    match left.direction
    case HigherIsBetter => right.value / left.value
    case LowerIsBetter => left.value / right.value
  }

  function When(yes: bool, gap: Gap): seq<Gap> {
    if yes then [gap] else []
  }

  function Gaps(a: Run, b: Run): seq<Gap> {
    When(a.environment != b.environment, Environment) +
    When(a.scoringModel != b.scoringModel, ScoringModel(a.scoringModel, b.scoringModel)) +
    When(a.profile != b.profile, Profile(a.profile, b.profile)) +
    When(a.profile == "endurance" || b.profile == "endurance", Cycled) +
    When(a.buildTarget != b.buildTarget, BuildTarget(a.buildTarget, b.buildTarget)) +
    When(a.agentVersion != b.agentVersion, AgentVersion(a.agentVersion, b.agentVersion))
  }

  /** Only recorded baskets can differ; bundles older than the record have an empty one. */
  predicate BasketsDiffer(a: Run, b: Run, key: string) {
    && key in a.baskets && key in b.baskets
    && a.baskets[key] != b.baskets[key]
    && a.baskets[key] != {} && b.baskets[key] != {}
  }

  predicate Matched(a: Run, b: Run, key: string) {
    && key in a.metrics && key in b.metrics
    && a.metrics[key].value > 0.0 && b.metrics[key].value > 0.0
  }

  /** Why a key of either run has no row. */
  function WhyUnmatched(a: Run, b: Run, key: string): Reason {
    if key !in b.metrics then BaselineOnly
    else if key !in a.metrics then CandidateOnly
    else NotPositive
  }

  function DeltaOf(a: Run, b: Run, key: string): Delta
    requires Matched(a, b, key)
  {
    var left, right := a.metrics[key], b.metrics[key];
    Delta(key, left.value, right.value, Ratio(left, right))
  }

  /** How often a comparison mentions a key, as a row or as unmatched. */
  ghost function Mentions(metrics: seq<Delta>, unmatched: seq<Unmatched>, key: string): nat {
    RowMentions(metrics, key) + UnmatchedMentions(unmatched, key)
  }

  ghost function RowMentions(metrics: seq<Delta>, key: string): nat {
    if metrics == [] then 0
    else RowMentions(metrics[..|metrics| - 1], key) + if metrics[|metrics| - 1].key == key then 1 else 0
  }

  ghost function UnmatchedMentions(unmatched: seq<Unmatched>, key: string): nat {
    if unmatched == [] then 0
    else UnmatchedMentions(unmatched[..|unmatched| - 1], key) + if unmatched[|unmatched| - 1].key == key then 1 else 0
  }

  /** Every entry is the right one for its key. */
  ghost predicate Truthful(a: Run, b: Run, metrics: seq<Delta>, unmatched: seq<Unmatched>) {
    && (forall d :: d in metrics ==> Matched(a, b, d.key) && d == DeltaOf(a, b, d.key))
    && (forall u :: u in unmatched ==>
          && (u.key in a.metrics || u.key in b.metrics) && !Matched(a, b, u.key)
          && u.reason == WhyUnmatched(a, b, u.key))
  }

  lemma MentionOne(metrics: seq<Delta>, unmatched: seq<Unmatched>, d: Delta, u: Unmatched, key: string)
    ensures Mentions(metrics + [d], unmatched, key) == Mentions(metrics, unmatched, key) + if d.key == key then 1 else 0
    ensures Mentions(metrics, unmatched + [u], key) == Mentions(metrics, unmatched, key) + if u.key == key then 1 else 0
  {
    assert (metrics + [d])[..|metrics|] == metrics;
    assert (unmatched + [u])[..|unmatched|] == unmatched;
  }

  /** Every key of either run appears exactly once, and every entry is the right one. */
  method Compare(a: Run, b: Run, aKeys: seq<string>, bKeys: seq<string>, basketKeys: seq<string>) returns (r: Result)
    requires Lists(aKeys, a.metrics.Keys) && Lists(bKeys, b.metrics.Keys) && Lists(basketKeys, a.baskets.Keys)
    ensures Truthful(a, b, r.metrics, r.unmatched)
    ensures forall key :: Mentions(r.metrics, r.unmatched, key) == if key in a.metrics || key in b.metrics then 1 else 0
    ensures r.comparable <==> Gaps(a, b) == [] && forall key :: key in a.baskets ==> !BasketsDiffer(a, b, key)
    ensures r.comparable <==> r.reasons == []
    ensures r.reasons == Gaps(a, b) + BasketReasons(a, b, basketKeys)
    ensures BasketsReported(a, b, basketKeys, r.reasons)
  {
    var metrics, unmatched := BaselineRows(a, b, aKeys);
    unmatched := CandidateRows(a, b, bKeys, metrics, unmatched);
    var reasons := BasketGaps(a, b, basketKeys);
    NoReasonsIff(a, b, basketKeys, reasons);
    r := Result(metrics, unmatched, reasons == [], reasons);
  }

  method BaselineRows(a: Run, b: Run, keys: seq<string>) returns (metrics: seq<Delta>, unmatched: seq<Unmatched>)
    requires Lists(keys, a.metrics.Keys)
    ensures Truthful(a, b, metrics, unmatched)
    ensures forall key :: Mentions(metrics, unmatched, key) == if key in a.metrics then 1 else 0
  {
    metrics, unmatched := [], [];
    for i := 0 to |keys|
      invariant Truthful(a, b, metrics, unmatched)
      invariant forall key :: Mentions(metrics, unmatched, key) == if key in keys[..i] then 1 else 0
    {
      var key := keys[i];
      assert key in keys && keys[..i + 1] == keys[..i] + [key] && key !in keys[..i];
      if key !in b.metrics {
        unmatched := Note(metrics, unmatched, Unmatched(key, BaselineOnly));
        continue;
      }
      var left, right := a.metrics[key], b.metrics[key];
      if left.value <= 0.0 || right.value <= 0.0 {
        unmatched := Note(metrics, unmatched, Unmatched(key, NotPositive));
        continue;
      }
      metrics := AddRow(metrics, unmatched, Delta(key, left.value, right.value, Ratio(left, right)));
    }
    assert keys[..|keys|] == keys;
  }

  method AddRow(metrics: seq<Delta>, ghost unmatched: seq<Unmatched>, d: Delta) returns (more: seq<Delta>)
    ensures more == metrics + [d]
    ensures forall k :: Mentions(more, unmatched, k) == Mentions(metrics, unmatched, k) + if d.key == k then 1 else 0
  {
    more := metrics + [d];
    forall k {
      MentionOne(metrics, unmatched, d, Unmatched(d.key, BaselineOnly), k);
    }
  }

  method Note(ghost metrics: seq<Delta>, unmatched: seq<Unmatched>, u: Unmatched) returns (more: seq<Unmatched>)
    ensures more == unmatched + [u]
    ensures forall k :: Mentions(metrics, more, k) == Mentions(metrics, unmatched, k) + if u.key == k then 1 else 0
  {
    more := unmatched + [u];
    forall k {
      MentionOne(metrics, unmatched, Delta(u.key, 0.0, 0.0, 0.0), u, k);
    }
  }

  method CandidateRows(a: Run, b: Run, keys: seq<string>, ghost metrics: seq<Delta>, before: seq<Unmatched>)
    returns (unmatched: seq<Unmatched>)
    requires Lists(keys, b.metrics.Keys)
    requires Truthful(a, b, metrics, before)
    requires forall key :: Mentions(metrics, before, key) == if key in a.metrics then 1 else 0
    ensures Truthful(a, b, metrics, unmatched)
    ensures forall key :: Mentions(metrics, unmatched, key) == if key in a.metrics || key in b.metrics then 1 else 0
  {
    unmatched := before;
    for i := 0 to |keys|
      invariant Truthful(a, b, metrics, unmatched)
      invariant forall key :: Mentions(metrics, unmatched, key) == if key in a.metrics || key in keys[..i] then 1 else 0
    {
      var key := keys[i];
      assert key in keys && keys[..i + 1] == keys[..i] + [key] && key !in keys[..i];
      if key !in a.metrics {
        unmatched := Note(metrics, unmatched, Unmatched(key, CandidateOnly));
      }
    }
    assert keys[..|keys|] == keys;
  }

  /** The basket reasons given so far are those of `keys`, and they are right. */
  ghost predicate BasketsReported(a: Run, b: Run, keys: seq<string>, reasons: seq<Gap>) {
    && (forall g :: g in reasons && g.Basket? ==> g.key in keys && BasketsDiffer(a, b, g.key))
    && (forall key :: key in keys && BasketsDiffer(a, b, key) ==>
          Basket(key, a.baskets[key], b.baskets[key]) in reasons)
  }

  ghost predicate NoBaskets(gaps: seq<Gap>) {
    forall g :: g in gaps ==> !g.Basket?
  }

  lemma NoBasketsAppend(gaps: seq<Gap>, yes: bool, gap: Gap)
    requires NoBaskets(gaps) && !gap.Basket?
    ensures NoBaskets(gaps + When(yes, gap))
  {
  }

  lemma FixedGapsAreNotBaskets(a: Run, b: Run)
    ensures NoBaskets(Gaps(a, b))
  {
    var g1 := When(a.environment != b.environment, Environment);
    var g2 := g1 + When(a.scoringModel != b.scoringModel, ScoringModel(a.scoringModel, b.scoringModel));
    NoBasketsAppend(g1, a.scoringModel != b.scoringModel, ScoringModel(a.scoringModel, b.scoringModel));
    var g3 := g2 + When(a.profile != b.profile, Profile(a.profile, b.profile));
    NoBasketsAppend(g2, a.profile != b.profile, Profile(a.profile, b.profile));
    var cycled := a.profile == "endurance" || b.profile == "endurance";
    NoBasketsAppend(g3, cycled, Cycled);
    var g4 := g3 + When(cycled, Cycled);
    NoBasketsAppend(g4, a.buildTarget != b.buildTarget, BuildTarget(a.buildTarget, b.buildTarget));
    var g5 := g4 + When(a.buildTarget != b.buildTarget, BuildTarget(a.buildTarget, b.buildTarget));
    NoBasketsAppend(g5, a.agentVersion != b.agentVersion, AgentVersion(a.agentVersion, b.agentVersion));
  }

  /** One reason for each of `keys` whose baskets differ, in that order. */
  function BasketReasons(a: Run, b: Run, keys: seq<string>): seq<Gap> {
    if keys == [] then []
    else
      var key := keys[|keys| - 1];
      BasketReasons(a, b, keys[..|keys| - 1]) +
      if BasketsDiffer(a, b, key) then [Basket(key, a.baskets[key], b.baskets[key])] else []
  }

  lemma {:induction false} BasketReasonsAreRight(a: Run, b: Run, keys: seq<string>)
    ensures BasketsReported(a, b, keys, BasketReasons(a, b, keys))
    ensures forall g :: g in BasketReasons(a, b, keys) ==> g.Basket?
  {
    if keys != [] {
      var before, key := keys[..|keys| - 1], keys[|keys| - 1];
      BasketReasonsAreRight(a, b, before);
      assert keys == before + [key];
    }
  }

  /** No category is reported twice. */
  lemma {:induction false} BasketReasonsAreDistinct(a: Run, b: Run, keys: seq<string>, i: nat, j: nat)
    requires Distinct(keys) && i < j < |BasketReasons(a, b, keys)|
    ensures BasketReasons(a, b, keys)[i].Basket? && BasketReasons(a, b, keys)[j].Basket?
    ensures BasketReasons(a, b, keys)[i].key != BasketReasons(a, b, keys)[j].key
  {
    var before := keys[..|keys| - 1];
    var reasons := BasketReasons(a, b, before);
    BasketReasonsAreRight(a, b, before);
    if j < |reasons| {
      BasketReasonsAreDistinct(a, b, before, i, j);
    } else {
      assert reasons[i] in reasons;
    }
  }

  lemma ReportedAfter(a: Run, b: Run, keys: seq<string>, first: seq<Gap>, more: seq<Gap>)
    requires NoBaskets(first) && BasketsReported(a, b, keys, more)
    ensures BasketsReported(a, b, keys, first + more)
  {
  }

  method BasketGaps(a: Run, b: Run, keys: seq<string>) returns (reasons: seq<Gap>)
    requires Lists(keys, a.baskets.Keys)
    ensures reasons == Gaps(a, b) + BasketReasons(a, b, keys)
    ensures BasketsReported(a, b, keys, reasons)
    ensures forall g :: g in reasons ==> g in Gaps(a, b) || g.Basket?
  {
    FixedGapsAreNotBaskets(a, b);
    BasketReasonsAreRight(a, b, keys);
    ReportedAfter(a, b, keys, Gaps(a, b), BasketReasons(a, b, keys));
    reasons := AppendBaskets(a, b, keys, Gaps(a, b));
  }

  method AppendBaskets(a: Run, b: Run, keys: seq<string>, first: seq<Gap>) returns (reasons: seq<Gap>)
    ensures reasons == first + BasketReasons(a, b, keys)
  {
    reasons := first;
    for i := 0 to |keys|
      invariant reasons == first + BasketReasons(a, b, keys[..i])
    {
      var key := keys[i];
      assert keys[..i + 1][..i] == keys[..i];
      if BasketsDiffer(a, b, key) {
        reasons := reasons + [Basket(key, a.baskets[key], b.baskets[key])];
      }
    }
    assert keys[..|keys|] == keys;
  }

  lemma NoReasonsIff(a: Run, b: Run, keys: seq<string>, reasons: seq<Gap>)
    requires Lists(keys, a.baskets.Keys)
    requires Gaps(a, b) <= reasons && BasketsReported(a, b, keys, reasons)
    requires forall g :: g in reasons ==> g in Gaps(a, b) || g.Basket?
    ensures reasons == [] <==> Gaps(a, b) == [] && forall key :: key in a.baskets ==> !BasketsDiffer(a, b, key)
  {
    if reasons != [] {
      assert reasons[0] in reasons;
    }
  }

  // ----- swapping the runs -------------------------------------------------------------

  lemma Reciprocal(x: real, y: real)
    requires x > 0.0 && y > 0.0
    ensures (x / y) * (y / x) == 1.0
  {
    assert (x / y) * y == x;
    assert (x / y) * (y / x) * x == (x / y) * y;
    Cancel((x / y) * (y / x), 1.0, x);
  }

  lemma PositiveProduct(p: real, q: real)
    requires p > 0.0 && q > 0.0
    ensures p * q > 0.0
  {
  }

  lemma ScaledOrder(p: real, q: real, x: real)
    requires x > 0.0
    ensures p < q <==> p * x < q * x
  {
    if p < q {
      PositiveProduct(q - p, x);
      assert (q - p) * x == q * x - p * x;
    } else if q < p {
      PositiveProduct(p - q, x);
      assert (p - q) * x == p * x - q * x;
    }
  }

  lemma Cancel(p: real, q: real, x: real)
    requires x > 0.0 && p * x == q * x
    ensures p == q
  {
    ScaledOrder(p, q, x);
    ScaledOrder(q, p, x);
  }

  lemma AboveOne(x: real, y: real)
    requires x > 0.0 && y > 0.0
    ensures x / y > 1.0 <==> x > y
    ensures x / y == 1.0 <==> x == y
  {
    var q := x / y;
    assert q * y == x;
    ScaledOrder(1.0, q, y);
    ScaledOrder(q, 1.0, y);
  }

  /** A ratio exceeds one exactly when the candidate is better in the declared direction. */
  lemma RatioMeansBetter(left: Metric, right: Metric)
    requires left.value > 0.0 && right.value > 0.0
    ensures Ratio(left, right) > 1.0 <==>
            if left.direction.HigherIsBetter? then right.value > left.value else right.value < left.value
  {
    AboveOne(right.value, left.value);
    AboveOne(left.value, right.value);
  }

  lemma SquareIsOne(q: real)
    requires q > 0.0
    ensures q * q == 1.0 <==> q == 1.0
  {
    if q < 1.0 {
      ScaledOrder(q, 1.0, q);
    } else if q > 1.0 {
      ScaledOrder(1.0, q, q);
    }
  }

  lemma QuotientPositive(x: real, y: real)
    requires x > 0.0 && y > 0.0
    ensures x / y > 0.0
  {
  }

  /** Swapping the runs inverts the ratio, exactly when their directions agree or nothing changed at all. */
  lemma SwappedRatioInverts(left: Metric, right: Metric)
    requires left.value > 0.0 && right.value > 0.0
    ensures Ratio(left, right) * Ratio(right, left) == 1.0 <==>
            left.direction == right.direction || left.value == right.value
  {
    Reciprocal(left.value, right.value);
    Reciprocal(right.value, left.value);
    QuotientPositive(left.value, right.value);
    QuotientPositive(right.value, left.value);
    SquareIsOne(left.value / right.value);
    SquareIsOne(right.value / left.value);
    AboveOne(left.value, right.value);
    AboveOne(right.value, left.value);
  }

  lemma GapsSwap(a: Run, b: Run)
    ensures Gaps(a, b) == [] <==> Gaps(b, a) == []
  {
  }

  /** Which keys get a row, and whether the runs are comparable at all, do not depend on which comes first. */
  lemma ComparisonIsSymmetric(a: Run, b: Run)
    ensures forall key :: Matched(a, b, key) <==> Matched(b, a, key)
    ensures Gaps(a, b) == [] <==> Gaps(b, a) == []
    ensures (forall key :: key in a.baskets ==> !BasketsDiffer(a, b, key)) <==>
            (forall key :: key in b.baskets ==> !BasketsDiffer(b, a, key))
  {
    GapsSwap(a, b);
    if exists key :: key in a.baskets && BasketsDiffer(a, b, key) {
      var key :| key in a.baskets && BasketsDiffer(a, b, key);
      assert key in b.baskets && BasketsDiffer(b, a, key);
    }
    if exists key :: key in b.baskets && BasketsDiffer(b, a, key) {
      var key :| key in b.baskets && BasketsDiffer(b, a, key);
      assert key in a.baskets && BasketsDiffer(a, b, key);
    }
  }
}
