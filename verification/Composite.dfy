/** The weighted composite score: the program's loops, proved against a specification on finite sums. */
module Composite {
  import opened Options
  import opened Rounding

  datatype MetricResult = MetricResult(metric: string, score: real, version: string, error: Option<string>)

  /** A dictionary of weights, in insertion order. */
  type Weights = seq<(string, real)>

  ghost predicate DistinctKeys(weights: Weights) {
    forall i, j :: 0 <= i < j < |weights| ==> weights[i].0 != weights[j].0
  }

  datatype Contribution = Contribution(metric: string, score: real, weight: real, contribution: real, version: string)

  datatype Report =
    | Rejected(error: string)
    | Scored(score: real, contributions: seq<Contribution>, missing: seq<string>, weightsUsed: Weights)

  /** An error string counts unless it is empty. */
  predicate Errored(r: MetricResult) {
    r.error.Some? && r.error.value != ""
  }

  /** The result the program looks up: the last one of that name. */
  function Lookup(results: seq<MetricResult>, metric: string): Option<MetricResult> {
    if results == [] then None
    else
      var last := results[|results| - 1];
      if last.metric == metric then Some(last) else Lookup(results[..|results| - 1], metric)
  }

  predicate Present(results: seq<MetricResult>, metric: string) {
    Lookup(results, metric).Some? && !Errored(Lookup(results, metric).value)
  }

  function Score(results: seq<MetricResult>, metric: string): real
    requires Present(results, metric)
  {
    Lookup(results, metric).value.score
  }

  function TotalWeight(weights: Weights): real {
    if weights == [] then 0.0 else TotalWeight(weights[..|weights| - 1]) + weights[|weights| - 1].1
  }

  function Over(w: real, total: real): real
    requires total != 0.0
  {
    w / total
  }

  function ShareOf(weight: (string, real), total: real): (string, real)
    requires total != 0.0
  {
    (weight.0, Over(weight.1, total))
  }

  /** Every weight divided by `total`. */
  function DivideBy(weights: Weights, total: real): (normal: Weights)
    requires total != 0.0
    ensures |normal| == |weights|
  {
    if weights == [] then []
    else
      var n := |weights| - 1;
      DivideBy(weights[..n], total) + [ShareOf(weights[n], total)]
  }

  function Normalized(weights: Weights): Weights
    requires TotalWeight(weights) != 0.0
  {
    DivideBy(weights, TotalWeight(weights))
  }

  function Times(x: real, factor: real): real {
    x * factor
  }

  /** Sum of score times weight over the metrics that have a usable result. */
  function WeightedSum(results: seq<MetricResult>, weights: Weights): real {
    if weights == [] then 0.0
    else
      var (metric, weight) := weights[|weights| - 1];
      WeightedSum(results, weights[..|weights| - 1])
      + (if Present(results, metric) then Times(Score(results, metric), weight) else 0.0)
  }

  /** Sum of the weights of those metrics. */
  function PresentWeight(results: seq<MetricResult>, weights: Weights): real {
    if weights == [] then 0.0
    else
      var (metric, weight) := weights[|weights| - 1];
      PresentWeight(results, weights[..|weights| - 1]) + (if Present(results, metric) then weight else 0.0)
  }

  /** The other metrics, in order. */
  function Missing(results: seq<MetricResult>, weights: Weights): seq<string> {
    if weights == [] then []
    else
      var (metric, _) := weights[|weights| - 1];
      Missing(results, weights[..|weights| - 1]) + (if Present(results, metric) then [] else [metric])
  }

  function Contributions(results: seq<MetricResult>, weights: Weights): seq<Contribution> {
    if weights == [] then []
    else
      var (metric, weight) := weights[|weights| - 1];
      Contributions(results, weights[..|weights| - 1])
      + (if Present(results, metric) then [Entry(metric, Lookup(results, metric).value, weight)] else [])
  }

  /** The factor applied when a metric is missing. */
  function Redistribution(present: real): real {
    if present < 1.0 then 1.0 / (1.0 - present) else 1.0
  }

  /** The score before rounding, from the loop's sums. */
  function RawFrom(sum: real, present: real, anyMissing: bool): real {
    var scaled := if anyMissing && 0.0 < present then Times(sum, Redistribution(present)) else sum;
    if scaled < 1.0 then scaled else 1.0
  }

  /** The score before rounding, for normalized weights. */
  function RawScore(results: seq<MetricResult>, normal: Weights): real {
    RawFrom(WeightedSum(results, normal), PresentWeight(results, normal), Missing(results, normal) != [])
  }

  function CompositeScore(results: seq<MetricResult>, weights: Weights): real
    requires TotalWeight(weights) != 0.0
  {
    Round4(RawScore(results, Normalized(weights)))
  }

  function RoundedWeights(weights: Weights): (rounded: Weights)
    ensures |rounded| == |weights|
    ensures forall k :: 0 <= k < |weights| ==> rounded[k] == (weights[k].0, Round4(weights[k].1))
  {
    seq(|weights|, k requires 0 <= k < |weights| => (weights[k].0, Round4(weights[k].1)))
  }

  /** The results by name. */
  method ResultMap(results: seq<MetricResult>) returns (byName: map<string, MetricResult>)
    ensures forall m :: (m in byName <==> Lookup(results, m).Some?)
    ensures forall m :: m in byName ==> byName[m] == Lookup(results, m).value
  {
    byName := map[];
    for i := 0 to |results|
      invariant forall m :: (m in byName <==> Lookup(results[..i], m).Some?)
      invariant forall m :: m in byName ==> byName[m] == Lookup(results[..i], m).value
    {
      assert results[..i + 1][..i] == results[..i];
      byName := byName[results[i].metric := results[i]];
    }
    assert results[..|results|] == results;
  }

  method SumWeights(weights: Weights) returns (total: real)
    ensures total == TotalWeight(weights)
  {
    total := 0.0;
    for i := 0 to |weights|
      invariant total == TotalWeight(weights[..i])
    {
      assert weights[..i + 1][..i] == weights[..i];
      total := total + weights[i].1;
    }
    assert weights[..|weights|] == weights;
  }

  /** The entry the report shows for a usable result. */
  function Entry(metric: string, r: MetricResult, weight: real): Contribution {
    Contribution(metric, r.score, Round4(weight), Round4(Times(r.score, weight)), r.version)
  }

  /** What one more weight adds to each of the loop's variables. */
  lemma OneMoreWeight(results: seq<MetricResult>, normal: Weights, i: nat)
    requires i < |normal|
    ensures var (metric, weight) := normal[i];
      if Present(results, metric) then
        && WeightedSum(results, normal[..i + 1])
             == WeightedSum(results, normal[..i]) + Times(Score(results, metric), weight)
        && PresentWeight(results, normal[..i + 1]) == PresentWeight(results, normal[..i]) + weight
        && Missing(results, normal[..i + 1]) == Missing(results, normal[..i])
        && Contributions(results, normal[..i + 1])
             == Contributions(results, normal[..i]) + [Entry(metric, Lookup(results, metric).value, weight)]
      else
        && WeightedSum(results, normal[..i + 1]) == WeightedSum(results, normal[..i])
        && PresentWeight(results, normal[..i + 1]) == PresentWeight(results, normal[..i])
        && Missing(results, normal[..i + 1]) == Missing(results, normal[..i]) + [metric]
        && Contributions(results, normal[..i + 1]) == Contributions(results, normal[..i])
  {
    assert normal[..i + 1][..i] == normal[..i];
  }

  /** The loop over the normalized weights. */
  method Accumulate(ghost results: seq<MetricResult>, byName: map<string, MetricResult>, normal: Weights)
    returns (sum: real, used: real, missing: seq<string>, contributions: seq<Contribution>)
    requires forall m :: (m in byName <==> Lookup(results, m).Some?)
    requires forall m :: m in byName ==> byName[m] == Lookup(results, m).value
    ensures sum == WeightedSum(results, normal)
    ensures used == PresentWeight(results, normal)
    ensures missing == Missing(results, normal)
    ensures contributions == Contributions(results, normal)
  {
    sum, used, missing, contributions := 0.0, 0.0, [], [];
    for i := 0 to |normal|
      invariant sum == WeightedSum(results, normal[..i])
      invariant used == PresentWeight(results, normal[..i])
      invariant missing == Missing(results, normal[..i])
      invariant contributions == Contributions(results, normal[..i])
    {
      OneMoreWeight(results, normal, i);
      var metric, weight := normal[i].0, normal[i].1;
      if metric in byName {
        var r := byName[metric];
        if Errored(r) {
          missing := missing + [metric];
          continue;
        }
        contributions := contributions + [Entry(metric, r, weight)];
        sum := sum + Times(r.score, weight);
        used := used + weight;
      } else {
        missing := missing + [metric];
      }
    }
    assert normal[..|normal|] == normal;
  }

  method ComputeComposite(results: seq<MetricResult>, weights: Weights) returns (report: Report)
    requires DistinctKeys(weights)
    ensures weights == [] ==> report == Rejected("no_weights")
    ensures weights != [] && TotalWeight(weights) == 0.0 ==> report == Rejected("zero_total_weight")
    ensures weights != [] && TotalWeight(weights) != 0.0 ==>
              && report.Scored?
              && report.score == CompositeScore(results, weights)
              && report.contributions == Contributions(results, Normalized(weights))
              && report.missing == Missing(results, Normalized(weights))
              && report.weightsUsed == RoundedWeights(Normalized(weights))
  {
    if weights == [] {
      return Rejected("no_weights");
    }
    var total := SumWeights(weights);
    if total == 0.0 {
      return Rejected("zero_total_weight");
    }
    var normal := DivideBy(weights, total);
    var byName := ResultMap(results);
    var sum, used, missing, contributions := Accumulate(results, byName, normal);
    if missing != [] && 0.0 < used {
      sum := Times(sum, Redistribution(used));
    }
    var capped := if sum < 1.0 then sum else 1.0;
    assert capped == RawScore(results, normal);
    report := Scored(Round4(capped), contributions, missing, RoundedWeights(normal));
  }
}
