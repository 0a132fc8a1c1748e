/** The quality gate, and why a baseline with enough margin makes it pass. */
module QualityGate {
  import opened Options
  import opened Regression

  /** A threshold's configuration; either key may be absent. */
  datatype Threshold = Threshold(min: Option<real>, max: Option<real>)

  /** A dictionary of thresholds, in order. */
  type Thresholds = seq<(string, Threshold)>

  ghost predicate DistinctKeys(thresholds: Thresholds) {
    forall i, j :: 0 <= i < j < |thresholds| ==> thresholds[i].0 != thresholds[j].0
  }

  /** The results dictionary: plain values, the hallucination report, and the advanced metric results. */
  datatype Results = Results(values: map<string, Option<real>>, hallucination: Option<Hallucination>,
                             metricResults: Option<seq<Record>>)

  datatype Bound = Finite(value: real) | Infinite

  datatype Check = Check(value: real, threshold: Bound, passed: bool, direction: Direction)

  /** Where a gate value came from. */
  datatype Origin = Plain | Report | Table | Nowhere

  predicate Matches(r: Record, metric: string) {
    r.metric == metric && r.error.None?
  }

  /** The first error-free result of that name. */
  function FirstMatch(records: seq<Record>, metric: string): Option<Record> {
    if records == [] then None
    else if Matches(records[0], metric) then Some(records[0])
    else FirstMatch(records[1..], metric)
  }

  function OriginOf(metric: string, results: Results): Origin {
    if metric in results.values && results.values[metric].Some? then Plain
    else if metric == "hallucination_fraction_unsupported" && Reported(results.hallucination) then Report
    else if results.metricResults.Some? && FirstMatch(results.metricResults.value, metric).Some? then Table
    else Nowhere
  }

  function GateValue(metric: string, results: Results): Option<real> {
    match OriginOf(metric, results)
    case Plain => results.values[metric]
    case Report => Some(Unsupported(results.hallucination.value))
    case Table => Some(FirstMatch(results.metricResults.value, metric).value.score)
    case Nowhere => None
  }

  method ExtractMetricValue(metric: string, results: Results) returns (value: Option<real>)
    ensures value == GateValue(metric, results)
  {
    if metric in results.values && results.values[metric].Some? {
      return results.values[metric];
    }
    if metric == "hallucination_fraction_unsupported" && Reported(results.hallucination) {
      return Some(Unsupported(results.hallucination.value));
    }
    if results.metricResults.Some? {
      var records := results.metricResults.value;
      for i := 0 to |records|
        invariant FirstMatch(records, metric) == FirstMatch(records[i..], metric)
      {
        if Matches(records[i], metric) {
          return Some(records[i].score);
        }
      }
    }
    value := None;
  }

  /** The least value allowed, or the greatest, with the program's defaults. */
  function BoundOf(direction: Direction, t: Threshold): Bound {
    if direction == Higher then Finite(if t.min.Some? then t.min.value else 0.0)
    else if t.max.Some? then Finite(t.max.value) else Infinite
  }

  predicate Within(direction: Direction, value: real, bound: Bound) {
    bound.Finite? ==> if direction == Higher then bound.value <= value else value <= bound.value
  }

  /** The gate looks at a threshold only for metrics with a declared direction that have a value. */
  predicate Checked(metric: string, results: Results) {
    metric in METRIC_DIRECTION && GateValue(metric, results).Some?
  }

  function CheckOf(metric: string, t: Threshold, results: Results): Check
    requires Checked(metric, results)
  {
    var direction := METRIC_DIRECTION[metric];
    var value := GateValue(metric, results).value;
    Check(value, BoundOf(direction, t), Within(direction, value, BoundOf(direction, t)), direction)
  }

  ghost predicate GatePasses(thresholds: Thresholds, results: Results) {
    forall k :: 0 <= k < |thresholds| && Checked(thresholds[k].0, results) ==>
      CheckOf(thresholds[k].0, thresholds[k].1, results).passed
  }

  // ---- What the gate's verdict means, read off the results alone ----

  /** The first error-free record of that name is the i-th. */
  predicate FirstAt(records: seq<Record>, i: int, metric: string, value: real) {
    && 0 <= i < |records| && records[i].metric == metric && records[i].error == None && records[i].score == value
    && forall j :: 0 <= j < i ==> records[j].metric != metric || records[j].error != None
  }

  /** A value given directly; without one, for hallucination, what a non-empty report says; without that, the first
      error-free record. */
  ghost predicate Holds(results: Results, metric: string, value: real) {
    if metric in results.values && results.values[metric] != None then results.values[metric] == Some(value)
    else if metric == "hallucination_fraction_unsupported" && results.hallucination.Some?
            && results.hallucination.value != Hallucination(None, false)
    then UnsupportedIs(results.hallucination, value)
    else results.metricResults.Some? && exists i :: FirstAt(results.metricResults.value, i, metric, value)
  }

  /** The metrics a gate can bound: these from above, the others from below, by 0 if nothing is given. */
  predicate Breaks(metric: string, t: Threshold, value: real) {
    if LessIsBetter(metric) then t.max.Some? && t.max.value < value
    else
      && metric in {"relevance", "faithfulness", "context_precision", "context_recall", "answer_relevancy",
                    "citation_correctness", "composite_score", "llm_judge"}
      && value < (if t.min.Some? then t.min.value else 0.0)
  }

  lemma {:induction false} FirstMatchIff(records: seq<Record>, metric: string, value: real)
    ensures FirstMatch(records, metric).Some? && FirstMatch(records, metric).value.score == value <==>
            exists i :: FirstAt(records, i, metric, value)
  {
    if records != [] {
      FirstMatchIff(records[1..], metric, value);
      if Matches(records[0], metric) {
        assert FirstAt(records, 0, metric, records[0].score);
      } else {
        if i :| FirstAt(records, i, metric, value) {
          assert FirstAt(records[1..], i - 1, metric, value);
        }
        if i :| FirstAt(records[1..], i, metric, value) {
          assert FirstAt(records, i + 1, metric, value);
        }
      }
    }
  }

  lemma HoldsIff(results: Results, metric: string, value: real)
    ensures GateValue(metric, results) == Some(value) <==> Holds(results, metric, value)
  {
    if results.metricResults.Some? {
      FirstMatchIff(results.metricResults.value, metric, value);
    }
  }

  lemma PassesIff(metric: string, t: Threshold, results: Results)
    ensures Checked(metric, results) && !CheckOf(metric, t, results).passed <==>
            exists value :: Holds(results, metric, value) && Breaks(metric, t, value)
  {
    DirectionIs(metric);
    if GateValue(metric, results).Some? {
      HoldsIff(results, metric, GateValue(metric, results).value);
    }
    if value :| Holds(results, metric, value) && Breaks(metric, t, value) {
      HoldsIff(results, metric, value);
    }
  }

  /** The two branches of the gate's loop. */
  method CheckValue(direction: Direction, config: Threshold, value: real) returns (check: Check)
    ensures var bound := BoundOf(direction, config);
      check == Check(value, bound, Within(direction, value, bound), direction)
  {
    if direction == Higher {
      var least := if config.min.Some? then config.min.value else 0.0;
      check := Check(value, Finite(least), least <= value, direction);
    } else {
      var most := if config.max.Some? then Finite(config.max.value) else Infinite;
      check := Check(value, most, most.Infinite? || value <= most.value, direction);
    }
  }

  /** The gate fails exactly when some bounded metric has a value that breaks its bound. */
  method EvaluateGate(thresholds: Thresholds, results: Results) returns (pass: bool, checks: map<string, Check>)
    requires DistinctKeys(thresholds)
    ensures pass <==> GatePasses(thresholds, results)
    ensures pass <==> forall k, value :: 0 <= k < |thresholds| && Holds(results, thresholds[k].0, value) ==>
                        !Breaks(thresholds[k].0, thresholds[k].1, value)
    ensures forall m :: m in checks <==>
              Checked(m, results) && exists k :: 0 <= k < |thresholds| && thresholds[k].0 == m
    ensures forall k :: 0 <= k < |thresholds| && Checked(thresholds[k].0, results) ==>
              checks[thresholds[k].0] == CheckOf(thresholds[k].0, thresholds[k].1, results)
  {
    checks := map[];
    for i := 0 to |thresholds|
      invariant forall m :: m in checks <==> Checked(m, results) && exists k :: 0 <= k < i && thresholds[k].0 == m
      invariant forall k :: 0 <= k < i && Checked(thresholds[k].0, results) ==>
                  checks[thresholds[k].0] == CheckOf(thresholds[k].0, thresholds[k].1, results)
    {
      var metric, config := thresholds[i].0, thresholds[i].1;
      if metric !in METRIC_DIRECTION {
        continue;
      }
      var direction := METRIC_DIRECTION[metric];
      var value := ExtractMetricValue(metric, results);
      if value.None? {
        continue;
      }
      var check := CheckValue(direction, config, value.value);
      checks := checks[metric := check];
    }
    pass := forall m :: m in checks ==> checks[m].passed;
    forall k | 0 <= k < |thresholds|
      ensures Checked(thresholds[k].0, results) && !CheckOf(thresholds[k].0, thresholds[k].1, results).passed <==>
              exists value :: Holds(results, thresholds[k].0, value) && Breaks(thresholds[k].0, thresholds[k].1, value)
    {
      PassesIff(thresholds[k].0, thresholds[k].1, results);
    }
  }

  // ---- The margin theorem ----

  /** The results dictionary of a stored run, with its advanced results. */
  function ResultsOf(run: EvalRun, records: Option<seq<Record>>): Results {
    Results(map["relevance" := run.relevance, "latency_ms" := run.latencyMs, "estimated_cost" := run.estimatedCost],
            run.hallucination, records)
  }

  function SourceOf(origin: Origin): Source {
    if origin == Table then Stored else Legacy
  }

  /** The value stays within the bound even after worsening by the tolerance. */
  predicate ClearsBy(direction: Direction, value: real, bound: Bound, tolerance: real) {
    bound.Finite? ==>
      if direction == Higher then bound.value <= value - tolerance else value + tolerance <= bound.value
  }

  ghost predicate DistinctNames(records: Option<seq<Record>>) {
    records.Some? ==>
      forall i, j :: 0 <= i < j < |records.value| ==> records.value[i].metric != records.value[j].metric
  }

  lemma {:induction false} FirstIsThere(records: seq<Record>, metric: string) returns (i: nat)
    requires FirstMatch(records, metric).Some?
    ensures i < |records| && records[i] == FirstMatch(records, metric).value && Matches(records[i], metric)
  {
    if Matches(records[0], metric) {
      i := 0;
    } else {
      i := FirstIsThere(records[1..], metric);
      i := i + 1;
    }
  }

  lemma {:induction false} LastIsThere(records: seq<Record>, i: nat)
    requires i < |records|
    requires forall i, j :: 0 <= i < j < |records| ==> records[i].metric != records[j].metric
    ensures LastRecord(records, records[i].metric) == Some(records[i])
  {
    if i < |records| - 1 {
      LastIsThere(records[..|records| - 1], i);
    }
  }

  /** A gate value is one of the values the comparison compares. */
  lemma GateValueIsCompared(run: EvalRun, records: Option<seq<Record>>, metric: string)
    requires DistinctNames(records) && metric in METRIC_DIRECTION && Checked(metric, ResultsOf(run, records))
    ensures var results := ResultsOf(run, records);
      GateValue(metric, results) == ValueOf(run, records, metric, SourceOf(OriginOf(metric, results)))
  {
    if OriginOf(metric, ResultsOf(run, records)) == Table {
      var i := FirstIsThere(records.value, metric);
      LastIsThere(records.value, i);
    }
  }

  /** The baseline has a value of the same source for every gate value of the current run, and clears the gate's bound
      by at least that metric's tolerance. */
  ghost predicate BaselineClears(x: Comparison, thresholds: Thresholds) {
    forall k :: 0 <= k < |thresholds| && Checked(thresholds[k].0, ResultsOf(x.current, x.currentRecords)) ==>
      var metric := thresholds[k].0;
      var source := SourceOf(OriginOf(metric, ResultsOf(x.current, x.currentRecords)));
      var value := ValueOf(x.baseline, x.baselineRecords, metric, source);
      && value.Some?
      && ClearsBy(DirectionOf(metric), value.value, BoundOf(DirectionOf(metric), thresholds[k].1),
                  ToleranceOf(x.tolerances, metric))
  }

  /** Margin theorem: if the baseline clears every thresholded metric by its tolerance and the comparison reports no
      regression, the current run passes the gate. Metrics the current run lacks are not checked. */
  lemma MarginImpliesPass(x: Comparison, thresholds: Thresholds)
    requires DistinctNames(x.currentRecords)
    requires BaselineClears(x, thresholds)
    requires forall metric, source :: !IsRegression(x, metric, source)
    ensures GatePasses(thresholds, ResultsOf(x.current, x.currentRecords))
  {
    var results := ResultsOf(x.current, x.currentRecords);
    forall k | 0 <= k < |thresholds| && Checked(thresholds[k].0, results)
      ensures CheckOf(thresholds[k].0, thresholds[k].1, results).passed
    {
      var metric := thresholds[k].0;
      GateValueIsCompared(x.current, x.currentRecords, metric);
      assert !IsRegression(x, metric, SourceOf(OriginOf(metric, results)));
    }
  }

  /** A run that has this value of one legacy metric and nothing else. */
  function RunWith(metric: string, value: real): EvalRun {
    match metric
    case "relevance" => EvalRun(Some(value), None, None, None)
    case "hallucination_fraction_unsupported" =>
      EvalRun(None, Some(Hallucination(Some(1.0 - value), false)), None, None)
    case "latency_ms" => EvalRun(None, None, Some(value), None)
    case _ => EvalRun(None, None, None, Some(value))
  }

  /** The worst value the tolerance allows after this one. */
  function Worsened(metric: string, value: real, tolerance: real): real {
    if DirectionOf(metric) == Higher then value - tolerance else value + tolerance
  }

  /** The threshold that bounds the metric in its direction. */
  function ThresholdAt(metric: string, bound: real): Threshold {
    if DirectionOf(metric) == Higher then Threshold(Some(bound), None) else Threshold(None, Some(bound))
  }

  /** The margin is the least one that works, for every legacy metric: if a baseline does not clear its bound by the
      tolerance, some current run has no regression against it and fails the gate. */
  lemma MarginIsTight(metric: string, value: real, tolerance: real, bound: real)
    requires metric in LEGACY && 0.0 <= tolerance
    requires !ClearsBy(DirectionOf(metric), value, Finite(bound), tolerance)
    ensures var current := RunWith(metric, Worsened(metric, value, tolerance));
      var x := Comparison(RunWith(metric, value), current, map[metric := tolerance], None, None);
      var thresholds := [(metric, ThresholdAt(metric, bound))];
      && (forall m, source :: !IsRegression(x, m, source))
      && !GatePasses(thresholds, ResultsOf(current, None))
  {
    var current := RunWith(metric, Worsened(metric, value, tolerance));
    var x := Comparison(RunWith(metric, value), current, map[metric := tolerance], None, None);
    var thresholds := [(metric, ThresholdAt(metric, bound))];
    assert LegacyValue(current, metric) == Some(Worsened(metric, value, tolerance));
    assert LegacyValue(x.baseline, metric) == Some(value);
    forall m, source ensures !IsRegression(x, m, source) {
      if source == Legacy && m != metric && Compared(x, m, source).Some? {
        assert Compared(x, m, source).value == (0.0, 0.0);
      }
    }
    assert thresholds[0].0 == metric && Checked(metric, ResultsOf(current, None));
    assert !CheckOf(metric, thresholds[0].1, ResultsOf(current, None)).passed;
  }

  /** The two services together: compare, then gate. */
  method CompareThenGate(baseline: EvalRun, current: EvalRun, tolerances: Option<Tolerances>,
                         baselineRecords: Option<seq<Record>>, currentRecords: Option<seq<Record>>,
                         thresholds: Thresholds)
    returns (detected: bool, pass: bool)
    requires DistinctKeys(thresholds) && DistinctNames(currentRecords)
    ensures var x := Comparison(baseline, current, if tolerances.Some? then tolerances.value else DEFAULT_TOLERANCES,
                                baselineRecords, currentRecords);
      BaselineClears(x, thresholds) ==> detected || pass
  {
    var regressions, improvements, checks;
    detected, regressions, improvements :=
      DetectRegressions(baseline, current, tolerances, baselineRecords, currentRecords);
    pass, checks := EvaluateGate(thresholds, ResultsOf(current, currentRecords));
    ghost var x := Comparison(baseline, current, if tolerances.Some? then tolerances.value else DEFAULT_TOLERANCES,
                              baselineRecords, currentRecords);
    if !detected && BaselineClears(x, thresholds) {
      MarginImpliesPass(x, thresholds);
    }
  }
}
