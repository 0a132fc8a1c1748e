/** What the composite score means: its range, its invariances, and how missing metrics distort it. */
module CompositeLaws {
  import opened Options
  import opened Rounding
  import opened Composite

  /** Non-negative weights with a positive sum. */
  ghost predicate Proper(weights: Weights) {
    && (forall k :: 0 <= k < |weights| ==> 0.0 <= weights[k].1)
    && 0.0 < TotalWeight(weights)
  }

  /** Scores are fractions. */
  ghost predicate Fractions(results: seq<MetricResult>) {
    forall k :: 0 <= k < |results| ==> 0.0 <= results[k].score <= 1.0
  }

  ghost predicate NonNegative(weights: Weights) {
    forall k :: 0 <= k < |weights| ==> 0.0 <= weights[k].1
  }

  // ---- Sums ----

  lemma {:induction false} LookupIsThere(results: seq<MetricResult>, metric: string)
    requires Lookup(results, metric).Some?
    ensures Lookup(results, metric).value in results && Lookup(results, metric).value.metric == metric
  {
    if results[|results| - 1].metric != metric {
      LookupIsThere(results[..|results| - 1], metric);
    }
  }

  lemma ScoreIsFraction(results: seq<MetricResult>, metric: string)
    requires Fractions(results) && Present(results, metric)
    ensures 0.0 <= Score(results, metric) <= 1.0
  {
    LookupIsThere(results, metric);
  }

  lemma Scaled(a: real, b: real, w: real)
    requires a <= b && 0.0 <= w
    ensures Times(a, w) <= Times(b, w)
  {
    assert 0.0 <= (b - a) * w;
  }

  lemma {:induction false} PresentPart(results: seq<MetricResult>, normal: Weights)
    requires NonNegative(normal)
    ensures 0.0 <= PresentWeight(results, normal) <= TotalWeight(normal)
    ensures Missing(results, normal) == [] ==> PresentWeight(results, normal) == TotalWeight(normal)
  {
    if normal != [] {
      var n := |normal| - 1;
      assert 0.0 <= normal[n].1;
      PresentPart(results, normal[..n]);
    }
  }

  lemma {:induction false} SumPart(results: seq<MetricResult>, normal: Weights)
    requires NonNegative(normal) && Fractions(results)
    ensures 0.0 <= WeightedSum(results, normal) <= PresentWeight(results, normal)
  {
    if normal != [] {
      var n := |normal| - 1;
      SumPart(results, normal[..n]);
      var (metric, weight) := normal[n];
      assert 0.0 <= weight;
      if Present(results, metric) {
        ScoreIsFraction(results, metric);
        ScoredShare(Score(results, metric), weight);
      }
    }
  }

  /** Present weight is part of the total, and bounds the weighted sum. */
  lemma SumBounds(results: seq<MetricResult>, normal: Weights)
    requires NonNegative(normal) && Fractions(results)
    ensures 0.0 <= WeightedSum(results, normal) <= PresentWeight(results, normal) <= TotalWeight(normal)
    ensures Missing(results, normal) == [] ==> PresentWeight(results, normal) == TotalWeight(normal)
  {
    PresentPart(results, normal);
    SumPart(results, normal);
  }

  lemma ScoredShare(score: real, weight: real)
    requires 0.0 <= score <= 1.0 && 0.0 <= weight
    ensures 0.0 <= Times(score, weight) <= weight
  {
    Scaled(0.0, score, weight);
    Scaled(score, 1.0, weight);
  }

  lemma Quotient(w: real, rest: real, total: real)
    requires total != 0.0
    ensures rest / total + w / total == (rest + w) / total
  {
  }

  lemma {:induction false} DividedTotal(weights: Weights, total: real)
    requires total != 0.0
    ensures TotalWeight(DivideBy(weights, total)) == TotalWeight(weights) / total
  {
    if weights != [] {
      var n := |weights| - 1;
      DividedTotal(weights[..n], total);
      Quotient(weights[n].1, TotalWeight(weights[..n]), total);
    }
  }

  lemma {:induction false} DividedEntries(weights: Weights, total: real)
    requires total != 0.0
    ensures forall k :: 0 <= k < |weights| ==> DivideBy(weights, total)[k] == ShareOf(weights[k], total)
  {
    if weights != [] {
      DividedEntries(weights[..|weights| - 1], total);
    }
  }

  lemma Share(w: real, total: real)
    requires 0.0 < total
    ensures 0.0 <= w ==> 0.0 <= w / total
    ensures total / total == 1.0
  {
  }

  lemma {:induction false} DividedNonNegative(weights: Weights, total: real)
    requires NonNegative(weights) && 0.0 < total
    ensures NonNegative(DivideBy(weights, total))
  {
    if weights != [] {
      var n := |weights| - 1;
      DividedNonNegative(weights[..n], total);
      Share(weights[n].1, total);
    }
  }

  /** Normalized weights are non-negative and sum to one. */
  lemma NormalizedProper(weights: Weights)
    requires Proper(weights)
    ensures NonNegative(Normalized(weights)) && TotalWeight(Normalized(weights)) == 1.0
  {
    var total := TotalWeight(weights);
    DividedTotal(weights, total);
    DividedNonNegative(weights, total);
    Share(total, total);
  }

  // ---- Range ----

  lemma RawInRange(results: seq<MetricResult>, normal: Weights)
    requires NonNegative(normal) && TotalWeight(normal) == 1.0 && Fractions(results)
    ensures 0.0 <= RawScore(results, normal) <= 1.0
  {
    SumBounds(results, normal);
    var present := PresentWeight(results, normal);
    assert 0.0 <= Redistribution(present);
    Scaled(0.0, WeightedSum(results, normal), Redistribution(present));
  }

  /** The composite of fractions under proper weights is a fraction. */
  lemma CompositeInRange(results: seq<MetricResult>, weights: Weights)
    requires Proper(weights) && Fractions(results)
    ensures 0.0 <= CompositeScore(results, weights) <= 1.0
  {
    NormalizedProper(weights);
    RawInRange(results, Normalized(weights));
    Round4Close(0.0);
    Round4Monotone(0.0, RawScore(results, Normalized(weights)));
    Round4Monotone(RawScore(results, Normalized(weights)), 1.0);
  }

  // ---- Invariance ----

  function ScaledWeight(weight: (string, real), factor: real): (string, real) {
    (weight.0, Times(weight.1, factor))
  }

  /** All weights multiplied by the same factor. */
  function ScaleWeights(weights: Weights, factor: real): Weights {
    if weights == [] then []
    else
      var n := |weights| - 1;
      ScaleWeights(weights[..n], factor) + [ScaledWeight(weights[n], factor)]
  }

  lemma {:induction false} ScaledTotal(weights: Weights, factor: real)
    ensures TotalWeight(ScaleWeights(weights, factor)) == TotalWeight(weights) * factor
  {
    if weights != [] {
      ScaledTotal(weights[..|weights| - 1], factor);
    }
  }

  lemma CancelFactor(w: real, total: real, factor: real)
    requires total != 0.0 && factor != 0.0
    ensures total * factor != 0.0
    ensures (w * factor) / (total * factor) == w / total
  {
  }

  lemma ShareCancels(weight: (string, real), total: real, factor: real)
    requires total != 0.0 && factor != 0.0 && total * factor != 0.0
    ensures ShareOf(ScaledWeight(weight, factor), total * factor) == ShareOf(weight, total)
  {
    CancelFactor(weight.1, total, factor);
    assert Over(Times(weight.1, factor), total * factor) == Over(weight.1, total);
  }

  lemma {:induction false} DividedScaled(weights: Weights, total: real, factor: real)
    requires total != 0.0 && factor != 0.0 && total * factor != 0.0
    ensures DivideBy(ScaleWeights(weights, factor), total * factor) == DivideBy(weights, total)
  {
    if weights != [] {
      var n := |weights| - 1;
      var rest := ScaleWeights(weights[..n], factor);
      var last := ScaledWeight(weights[n], factor);
      assert (rest + [last])[..|rest|] == rest && ScaleWeights(weights, factor) == rest + [last];
      DividedScaled(weights[..n], total, factor);
      ShareCancels(weights[n], total, factor);
    }
  }

  lemma NormalizedScaled(weights: Weights, factor: real)
    requires TotalWeight(weights) != 0.0 && factor != 0.0
    ensures TotalWeight(ScaleWeights(weights, factor)) != 0.0
    ensures Normalized(ScaleWeights(weights, factor)) == Normalized(weights)
  {
    var total := TotalWeight(weights);
    ScaledTotal(weights, factor);
    CancelFactor(1.0, total, factor);
    DividedScaled(weights, total, factor);
    assert TotalWeight(ScaleWeights(weights, factor)) == total * factor;
  }

  /** Only the proportions of the weights matter. */
  lemma ScalingWeightsChangesNothing(results: seq<MetricResult>, weights: Weights, factor: real)
    requires TotalWeight(weights) != 0.0 && factor != 0.0
    ensures TotalWeight(ScaleWeights(weights, factor)) != 0.0
    ensures CompositeScore(results, ScaleWeights(weights, factor)) == CompositeScore(results, weights)
    ensures Missing(results, Normalized(ScaleWeights(weights, factor))) == Missing(results, Normalized(weights))
  {
    NormalizedScaled(weights, factor);
  }

  ghost predicate DistinctNames(results: seq<MetricResult>) {
    forall i, j :: 0 <= i < j < |results| ==> results[i].metric != results[j].metric
  }

  lemma {:induction false} LookupFinds(results: seq<MetricResult>, r: MetricResult)
    requires DistinctNames(results) && r in results
    ensures Lookup(results, r.metric) == Some(r)
  {
    var n := |results| - 1;
    if results[n] != r {
      assert results == results[..n] + [results[n]];
      var i :| 0 <= i < |results| && results[i] == r;
      LookupFinds(results[..n], r);
    }
  }

  lemma SameLookup(results: seq<MetricResult>, others: seq<MetricResult>, metric: string)
    requires DistinctNames(results) && DistinctNames(others) && multiset(results) == multiset(others)
    ensures Lookup(results, metric) == Lookup(others, metric)
  {
    assert forall r :: r in results <==> r in multiset(results);
    assert forall r :: r in others <==> r in multiset(others);
    if Lookup(results, metric).Some? {
      LookupIsThere(results, metric);
      LookupFinds(others, Lookup(results, metric).value);
    } else if Lookup(others, metric).Some? {
      LookupIsThere(others, metric);
      LookupFinds(results, Lookup(others, metric).value);
    }
  }

  lemma {:induction false} SameSums(results: seq<MetricResult>, others: seq<MetricResult>, normal: Weights)
    requires forall metric :: Lookup(results, metric) == Lookup(others, metric)
    ensures WeightedSum(results, normal) == WeightedSum(others, normal)
    ensures PresentWeight(results, normal) == PresentWeight(others, normal)
    ensures Missing(results, normal) == Missing(others, normal)
  {
    if normal != [] {
      var n := |normal| - 1;
      SameSums(results, others, normal[..n]);
      assert Lookup(results, normal[n].0) == Lookup(others, normal[n].0);
    }
  }

  lemma SameRaw(results: seq<MetricResult>, others: seq<MetricResult>, normal: Weights)
    requires forall metric :: Lookup(results, metric) == Lookup(others, metric)
    ensures Round4(RawScore(results, normal)) == Round4(RawScore(others, normal))
    ensures Missing(results, normal) == Missing(others, normal)
  {
    SameSums(results, others, normal);
    assert RawScore(results, normal) == RawScore(others, normal);
  }

  lemma SameLookups(results: seq<MetricResult>, others: seq<MetricResult>)
    requires DistinctNames(results) && DistinctNames(others) && multiset(results) == multiset(others)
    ensures forall metric :: Lookup(results, metric) == Lookup(others, metric)
  {
    forall metric ensures Lookup(results, metric) == Lookup(others, metric) {
      SameLookup(results, others, metric);
    }
  }

  /** The order of distinctly named results does not matter. */
  lemma ReorderingResultsChangesNothing(results: seq<MetricResult>, others: seq<MetricResult>, weights: Weights)
    requires DistinctNames(results) && DistinctNames(others) && multiset(results) == multiset(others)
    requires TotalWeight(weights) != 0.0
    ensures CompositeScore(results, weights) == CompositeScore(others, weights)
    ensures Missing(results, Normalized(weights)) == Missing(others, Normalized(weights))
  {
    SameLookups(results, others);
    SameRaw(results, others, Normalized(weights));
  }

  // ---- Monotonicity ----

  /** The same results with no score lower. */
  ghost predicate NoLower(results: seq<MetricResult>, better: seq<MetricResult>) {
    |results| == |better| &&
    forall k :: 0 <= k < |results| ==>
      && results[k].metric == better[k].metric && results[k].error == better[k].error
      && results[k].score <= better[k].score
  }

  lemma {:induction false} NoLowerLookup(results: seq<MetricResult>, better: seq<MetricResult>, metric: string)
    requires NoLower(results, better)
    ensures Present(results, metric) == Present(better, metric)
    ensures Present(results, metric) ==> Score(results, metric) <= Score(better, metric)
  {
    if results != [] && results[|results| - 1].metric != metric {
      NoLowerLookup(results[..|results| - 1], better[..|better| - 1], metric);
    }
  }

  lemma {:induction false} NoLowerSum(results: seq<MetricResult>, better: seq<MetricResult>, normal: Weights)
    requires NoLower(results, better) && NonNegative(normal)
    ensures WeightedSum(results, normal) <= WeightedSum(better, normal)
    ensures PresentWeight(results, normal) == PresentWeight(better, normal)
    ensures Missing(results, normal) == Missing(better, normal)
  {
    if normal != [] {
      var n := |normal| - 1;
      NoLowerSum(results, better, normal[..n]);
      NoLowerLookup(results, better, normal[n].0);
      if Present(results, normal[n].0) {
        Scaled(Score(results, normal[n].0), Score(better, normal[n].0), normal[n].1);
      }
    }
  }

  lemma RawMonotone(sum: real, larger: real, present: real, anyMissing: bool)
    requires sum <= larger
    ensures RawFrom(sum, present, anyMissing) <= RawFrom(larger, present, anyMissing)
  {
    if present < 1.0 {
      Share(1.0, 1.0 - present);
    }
    Scaled(sum, larger, Redistribution(present));
  }

  /** Raising scores never lowers the composite, rounding and redistribution included. */
  lemma CompositeIsMonotone(results: seq<MetricResult>, better: seq<MetricResult>, weights: Weights)
    requires Proper(weights) && NoLower(results, better)
    ensures CompositeScore(results, weights) <= CompositeScore(better, weights)
  {
    var normal := Normalized(weights);
    NormalizedProper(weights);
    NoLowerSum(results, better, normal);
    RawMonotone(WeightedSum(results, normal), WeightedSum(better, normal), PresentWeight(results, normal),
                Missing(results, normal) != []);
    Round4Monotone(RawScore(results, normal), RawScore(better, normal));
  }

  // ---- Nothing missing ----

  lemma {:induction false} MeanBounds(results: seq<MetricResult>, normal: Weights, low: real, high: real)
    requires NonNegative(normal) && Missing(results, normal) == []
    requires forall k :: 0 <= k < |normal| && Present(results, normal[k].0) ==>
               low <= Score(results, normal[k].0) <= high
    ensures low * TotalWeight(normal) <= WeightedSum(results, normal) <= high * TotalWeight(normal)
  {
    if normal != [] {
      var n := |normal| - 1;
      var (metric, weight) := normal[n];
      assert Missing(results, normal)
          == Missing(results, normal[..n]) + (if Present(results, metric) then [] else [metric]);
      assert Present(results, normal[n].0);
      MeanBounds(results, normal[..n], low, high);
      Scaled(low, Score(results, metric), weight);
      Scaled(Score(results, metric), high, weight);
    }
  }

  /** With nothing missing, the composite is the rounded weighted mean and lies between the rounded least and
      greatest weighted score. */
  lemma CompleteComposite(results: seq<MetricResult>, weights: Weights, low: real, high: real)
    requires Proper(weights) && Fractions(results) && Missing(results, Normalized(weights)) == []
    requires forall k :: 0 <= k < |weights| && Present(results, weights[k].0) ==>
               low <= Score(results, weights[k].0) <= high
    ensures CompositeScore(results, weights) == Round4(WeightedSum(results, Normalized(weights)))
    ensures Round4(low) <= CompositeScore(results, weights) <= Round4(high)
  {
    var normal := Normalized(weights);
    NormalizedProper(weights);
    SumBounds(results, normal);
    DividedEntries(weights, TotalWeight(weights));
    MeanBounds(results, normal, low, high);
    Round4Monotone(low, WeightedSum(results, normal));
    Round4Monotone(WeightedSum(results, normal), high);
  }

  // ---- Something missing ----

  /** What redistributing the missing weight in proportion would give: the mean over the metrics present. */
  function ProportionalScore(results: seq<MetricResult>, normal: Weights): real
    requires PresentWeight(results, normal) != 0.0
  {
    WeightedSum(results, normal) / PresentWeight(results, normal)
  }

  lemma ProductOrder(x: real, y: real, a: real)
    requires 0.0 < a
    ensures x < y ==> x * a < y * a
    ensures x <= y ==> x * a <= y * a
  {
    assert x < y ==> 0.0 < (y - x) * a;
    assert (y - x) * a == y * a - x * a;
  }

  lemma Division(sum: real, a: real, b: real)
    requires 0.0 <= sum && 0.0 < a && 0.0 < b
    ensures a <= b ==> sum / b <= sum / a
    ensures 0.0 < sum && a < b ==> sum / b < sum / a
    ensures sum * (1.0 / a) == sum / a
  {
    // sum / a and sum / b differ by sum * (b - a) / (a * b)
    var x, y := sum / a, sum / b;
    ProductOrder(x, y, a);
    ProductOrder(y, x, a);
    assert x * a == y * b && 0.0 <= y;
    assert a <= b ==> y * a <= y * b by {
      if a <= b {
        Scaled(a, b, y);
      }
    }
    assert 0.0 < sum ==> 0.0 < y;
    assert 0.0 < y && a < b ==> y * a < y * b by {
      if 0.0 < y {
        ProductOrder(a, b, y);
      }
    }
  }

  lemma WholeQuotient(sum: real, w: real)
    requires 0.0 < w
    ensures sum / w == 1.0 <==> sum == w
    ensures sum <= w ==> sum / w <= 1.0
    ensures w < sum ==> 1.0 < sum / w
    ensures sum / w == 0.0 <==> sum == 0.0
  {
    var q := sum / w;
    assert q * w == sum;
    ProductOrder(1.0, q, w);
    ProductOrder(q, 1.0, w);
  }

  /** The code multiplies by 1/(1 - W) where proportional redistribution would multiply by 1/W. With present weight
      0 < W < 1 its value (before rounding) is no less than the proportional mean when W >= 1/2, no greater when
      W <= 1/2, and equal exactly when W = 1/2, when every weighted score is 0, or when W > 1/2 and the mean is 1. */
  lemma RedistributionLaw(results: seq<MetricResult>, weights: Weights)
    requires Proper(weights) && Fractions(results)
    requires 0.0 < PresentWeight(results, Normalized(weights)) < 1.0
    ensures var normal := Normalized(weights);
      var present, sum := PresentWeight(results, normal), WeightedSum(results, normal);
      && (0.5 <= present ==> ProportionalScore(results, normal) <= RawScore(results, normal))
      && (present <= 0.5 ==> RawScore(results, normal) <= ProportionalScore(results, normal))
      && (RawScore(results, normal) == ProportionalScore(results, normal) <==>
            present == 0.5 || sum == 0.0 || (0.5 < present && sum == present))
      && (0.5 <= present ==> Round4(ProportionalScore(results, normal)) <= CompositeScore(results, weights))
      && (present <= 0.5 ==> CompositeScore(results, weights) <= Round4(ProportionalScore(results, normal)))
  {
    var normal := Normalized(weights);
    NormalizedProper(weights);
    SumBounds(results, normal);
    var present, sum := PresentWeight(results, normal), WeightedSum(results, normal);
    var absent := 1.0 - present;
    assert Missing(results, normal) != [];
    Division(sum, absent, present);
    Division(sum, present, absent);
    WholeQuotient(sum, present);
    WholeQuotient(sum, absent);
    assert RawScore(results, normal) == if sum / absent < 1.0 then sum / absent else 1.0;
    var raw, proportional := RawScore(results, normal), ProportionalScore(results, normal);
    if raw <= proportional {
      Round4Monotone(raw, proportional);
    }
    if proportional <= raw {
      Round4Monotone(proportional, raw);
    }
  }

  /** A concrete run in which the redistributed score is not the proportional one. */
  lemma RedistributionIsNotProportional() returns (results: seq<MetricResult>, weights: Weights)
    ensures Proper(weights) && Fractions(results)
    ensures PresentWeight(results, Normalized(weights)) == 0.75
    ensures ProportionalScore(results, Normalized(weights)) == 0.2
    ensures RawScore(results, Normalized(weights)) == 0.6
  {
    results := [MetricResult("a", 0.2, "1", None)];
    var first: Weights := [("a", 0.75)];
    weights := first + [("b", 0.25)];
    assert first[..0] == [] && weights[..1] == first;
    assert TotalWeight(first) == 0.75 && TotalWeight(weights) == 1.0;
    var normal := Normalized(weights);
    DividedEntries(weights, 1.0);
    assert normal == weights;
    assert Lookup(results, "a") == Some(results[0]);
    assert results[..0] == [] && Lookup(results, "b") == None;
    assert WeightedSum(results, first) == 0.2 * 0.75 && PresentWeight(results, first) == 0.75;
    assert Missing(results, normal) == ["b"];
  }

  /** Nothing is redistributed when the metrics present already have all the weight, so a missing metric of weight zero
      changes nothing, or when they have none. */
  lemma NothingToRedistribute(results: seq<MetricResult>, weights: Weights)
    requires TotalWeight(weights) != 0.0
    requires var present := PresentWeight(results, Normalized(weights)); 1.0 <= present || present <= 0.0
    ensures var sum := WeightedSum(results, Normalized(weights));
      CompositeScore(results, weights) == Round4(if sum < 1.0 then sum else 1.0)
  {
  }

  // ---- What the report shows ----

  /** The last result of that name is the i-th, and it carries no error. */
  predicate SaysAt(results: seq<MetricResult>, i: int, metric: string) {
    && 0 <= i < |results| && results[i].metric == metric
    && (results[i].error == None || results[i].error == Some(""))
    && forall j :: i < j < |results| ==> results[j].metric != metric
  }

  lemma {:induction false} LookupAt(results: seq<MetricResult>, i: nat)
    requires i < |results| && forall j :: i < j < |results| ==> results[j].metric != results[i].metric
    ensures Lookup(results, results[i].metric) == Some(results[i])
  {
    if i < |results| - 1 {
      LookupAt(results[..|results| - 1], i);
    }
  }

  lemma {:induction false} LastOf(results: seq<MetricResult>, metric: string) returns (i: nat)
    requires Lookup(results, metric).Some?
    ensures i < |results| && results[i] == Lookup(results, metric).value && results[i].metric == metric
    ensures forall j :: i < j < |results| ==> results[j].metric != metric
  {
    i := |results| - 1;
    if results[i].metric != metric {
      i := LastOf(results[..i], metric);
    }
  }

  /** A metric is usable exactly when the last result of its name carries no error. */
  lemma PresentIff(results: seq<MetricResult>, metric: string)
    ensures Present(results, metric) <==> exists i :: SaysAt(results, i, metric)
    ensures forall i :: SaysAt(results, i, metric) ==> Lookup(results, metric) == Some(results[i])
  {
    forall i | SaysAt(results, i, metric) ensures Lookup(results, metric) == Some(results[i]) {
      LookupAt(results, i);
    }
    if Present(results, metric) {
      var i := LastOf(results, metric);
      assert SaysAt(results, i, metric);
    }
  }

  /** The value to four places. */
  predicate Near(shown: real, value: real) {
    -0.00005 <= shown - value <= 0.00005 && FourPlaces(shown)
  }

  /** The entry shows a result's own score and version, its metric's weight, and their product, rounded. */
  predicate Shows(shown: Contribution, r: MetricResult, weight: real) {
    && shown.metric == r.metric && shown.score == r.score && shown.version == r.version
    && Near(shown.weight, weight) && Near(shown.contribution, r.score * weight)
  }

  lemma EntryShows(r: MetricResult, weight: real)
    ensures Shows(Entry(r.metric, r, weight), r, weight)
  {
    RoundsNear(weight);
    RoundsNear(r.score * weight);
  }

  lemma RoundsNear(x: real)
    ensures Near(Round4(x), x)
  {
    Round4Close(x);
    Round4Places(x);
  }

  /** The weights a report shows are the weights divided by their sum, to four places. */
  lemma WeightsShown(weights: Weights, k: nat)
    requires TotalWeight(weights) != 0.0 && k < |weights|
    ensures |RoundedWeights(Normalized(weights))| == |weights|
    ensures RoundedWeights(Normalized(weights))[k].0 == weights[k].0
    ensures Near(RoundedWeights(Normalized(weights))[k].1, weights[k].1 / TotalWeight(weights))
  {
    DividedEntries(weights, TotalWeight(weights));
    RoundsNear(Normalized(weights)[k].1);
  }

  /** Every weighted metric is either shown or missing: shown from the last result of its name if that carries no
      error, missing otherwise. Both lists are in the order of the weights. */
  ghost predicate Explains(results: seq<MetricResult>, normal: Weights, shown: seq<Contribution>, missing: seq<string>)
  {
    if normal == [] then shown == [] && missing == []
    else
      var n := |normal| - 1;
      if exists i :: SaysAt(results, i, normal[n].0) then
        && shown != []
        && (forall i :: SaysAt(results, i, normal[n].0) ==> Shows(shown[|shown| - 1], results[i], normal[n].1))
        && Explains(results, normal[..n], shown[..|shown| - 1], missing)
      else
        && missing != [] && missing[|missing| - 1] == normal[n].0
        && Explains(results, normal[..n], shown, missing[..|missing| - 1])
  }

  lemma {:induction false} ReportExplains(results: seq<MetricResult>, normal: Weights)
    ensures Explains(results, normal, Contributions(results, normal), Missing(results, normal))
  {
    if normal != [] {
      var n := |normal| - 1;
      var (metric, weight) := normal[n];
      ReportExplains(results, normal[..n]);
      OneMoreWeight(results, normal, n);
      assert normal[..n + 1] == normal;
      PresentIff(results, metric);
      if Present(results, metric) {
        LookupIsThere(results, metric);
        EntryShows(Lookup(results, metric).value, weight);
        assert Contributions(results, normal)[..|Contributions(results, normal)| - 1]
            == Contributions(results, normal[..n]);
      } else {
        assert Missing(results, normal)[..|Missing(results, normal)| - 1] == Missing(results, normal[..n]);
      }
    }
  }

  function ShownTotal(shown: seq<Contribution>): real {
    if shown == [] then 0.0 else ShownTotal(shown[..|shown| - 1]) + shown[|shown| - 1].contribution
  }

  /** The contributions shown add up to the weighted sum, but for the rounding of each. */
  lemma {:induction false} ShownAddsUp(results: seq<MetricResult>, normal: Weights)
    ensures var shown := Contributions(results, normal); var bound := 0.00005 * |shown| as real;
      && |shown| + |Missing(results, normal)| == |normal|
      && -bound <= ShownTotal(shown) - WeightedSum(results, normal) <= bound
  {
    if normal != [] {
      var n := |normal| - 1;
      var (metric, weight) := normal[n];
      ShownAddsUp(results, normal[..n]);
      OneMoreWeight(results, normal, n);
      assert normal[..n + 1] == normal;
      if Present(results, metric) {
        LookupIsThere(results, metric);
        EntryShows(Lookup(results, metric).value, weight);
        assert Contributions(results, normal)[..|Contributions(results, normal)| - 1]
            == Contributions(results, normal[..n]);
      }
    }
  }

  /** With nothing missing the contributions shown account for the score, but for the rounding of each and of the
      score, unless the score is capped. */
  lemma ShownExplainsScore(results: seq<MetricResult>, weights: Weights)
    requires TotalWeight(weights) != 0.0 && Missing(results, Normalized(weights)) == []
    requires WeightedSum(results, Normalized(weights)) <= 1.0
    ensures var shown := Contributions(results, Normalized(weights)); var bound := 0.00005 * (|weights| + 1) as real;
      |shown| == |weights| && -bound <= ShownTotal(shown) - CompositeScore(results, weights) <= bound
  {
    ShownAddsUp(results, Normalized(weights));
    Round4Close(RawScore(results, Normalized(weights)));
  }
}
