/** Comparing a run with a baseline run: the program's two loops, and what its verdicts mean. */
module Regression {
  import opened Options
  import opened Rounding

  datatype Direction = Higher | Lower

  /** The metrics with a declared direction. */
  const METRIC_DIRECTION: map<string, Direction> := map[
    "relevance" := Higher, "faithfulness" := Higher, "context_precision" := Higher, "context_recall" := Higher,
    "answer_relevancy" := Higher, "citation_correctness" := Higher,
    "hallucination_fraction_unsupported" := Lower, "latency_ms" := Lower, "estimated_cost" := Lower,
    "composite_score" := Higher, "llm_judge" := Higher]

  function DirectionOf(metric: string): Direction {
    if metric in METRIC_DIRECTION then METRIC_DIRECTION[metric] else Higher
  }

  type Tolerances = map<string, real>

  const DEFAULT_TOLERANCES: Tolerances := map[
    "relevance" := 0.05, "hallucination_fraction_unsupported" := 0.05, "latency_ms" := 0.20, "estimated_cost" := 0.20,
    "faithfulness" := 0.05, "context_precision" := 0.05, "context_recall" := 0.05, "answer_relevancy" := 0.05,
    "citation_correctness" := 0.05, "composite_score" := 0.05, "llm_judge" := 0.05]

  function ToleranceOf(tolerances: Tolerances, metric: string): real {
    if metric in tolerances then tolerances[metric] else 0.05
  }

  /** The stored hallucination report, as a dictionary: its `fraction_supported`, and whether it has other keys. */
  datatype Hallucination = Hallucination(fractionSupported: Option<real>, otherKeys: bool)

  /** An empty dictionary counts as absent. */
  predicate Reported(h: Option<Hallucination>) {
    h.Some? && (h.value.fractionSupported.Some? || h.value.otherKeys)
  }

  function Unsupported(h: Hallucination): real {
    1.0 - (if h.fractionSupported.Some? then h.fractionSupported.value else 1.0)
  }

  datatype EvalRun = EvalRun(relevance: Option<real>, hallucination: Option<Hallucination>,
                             latencyMs: Option<real>, estimatedCost: Option<real>)

  /** A row of the metric results table. */
  datatype Record = Record(metric: string, score: real, version: string, error: Option<string>)

  datatype Source = Legacy | Stored

  datatype Entry = Entry(metric: string, baseline: real, current: real, change: real, threshold: real,
                         direction: Direction, source: Source)

  /** Everything one comparison looks at. */
  datatype Comparison = Comparison(
    baseline: EvalRun, current: EvalRun, tolerances: Tolerances,
    baselineRecords: Option<seq<Record>>, currentRecords: Option<seq<Record>>)

  const LEGACY := ["relevance", "hallucination_fraction_unsupported", "latency_ms", "estimated_cost"]

  const LEGACY_SET: set<string> := set m | m in LEGACY

  /** A legacy metric of a run; a missing hallucination report counts as fully supported. */
  function LegacyValue(run: EvalRun, metric: string): Option<real> {
    match metric
    case "relevance" => run.relevance
    case "hallucination_fraction_unsupported" =>
      Some(if Reported(run.hallucination) then Unsupported(run.hallucination.value) else 0.0)
    case "latency_ms" => run.latencyMs
    case "estimated_cost" => run.estimatedCost
    case _ => None
  }

  /** The last record of that name. */
  function LastRecord(records: seq<Record>, metric: string): Option<Record> {
    if records == [] then None
    else
      var last := records[|records| - 1];
      if last.metric == metric then Some(last) else LastRecord(records[..|records| - 1], metric)
  }

  predicate Usable(r: Option<Record>) {
    r.Some? && (r.value.error.None? || r.value.error.value == "")
  }

  function StoredValue(records: Option<seq<Record>>, metric: string): Option<real> {
    if records.Some? && Usable(LastRecord(records.value, metric))
    then Some(LastRecord(records.value, metric).value.score)
    else None
  }

  /** A metric of one of the two runs, by where it comes from; the legacy wrappers are not read from the table. */
  function ValueOf(run: EvalRun, records: Option<seq<Record>>, metric: string, source: Source): Option<real> {
    match source
    case Legacy => LegacyValue(run, metric)
    case Stored => if metric == "latency" || metric == "cost" then None else StoredValue(records, metric)
  }

  /** The two values compared for a metric and source, if both runs have one. */
  function Compared(x: Comparison, metric: string, source: Source): Option<(real, real)> {
    var b := ValueOf(x.baseline, x.baselineRecords, metric, source);
    var c := ValueOf(x.current, x.currentRecords, metric, source);
    if b.Some? && c.Some? then Some((b.value, c.value)) else None
  }

  predicate Worse(direction: Direction, change: real, tolerance: real) {
    if direction == Higher then change < -tolerance else tolerance < change
  }

  predicate IsRegression(x: Comparison, metric: string, source: Source) {
    && Compared(x, metric, source).Some?
    && var (b, c) := Compared(x, metric, source).value;
       Worse(DirectionOf(metric), c - b, ToleranceOf(x.tolerances, metric))
  }

  /** What the program lists under `improvements`: any other change. */
  predicate IsOtherChange(x: Comparison, metric: string, source: Source) {
    && Compared(x, metric, source).Some?
    && !IsRegression(x, metric, source)
    && Compared(x, metric, source).value.0 != Compared(x, metric, source).value.1
  }

  predicate IsUnchanged(x: Comparison, metric: string, source: Source) {
    && Compared(x, metric, source).Some?
    && !IsRegression(x, metric, source)
    && Compared(x, metric, source).value.0 == Compared(x, metric, source).value.1
  }

  function EntryFor(x: Comparison, metric: string, source: Source): Entry
    requires Compared(x, metric, source).Some?
  {
    var (b, c) := Compared(x, metric, source).value;
    Entry(metric, b, c, Round6(c - b), ToleranceOf(x.tolerances, metric), DirectionOf(metric), source)
  }

  /** No two entries are about the same metric from the same source. */
  ghost predicate NoRepeats(entries: seq<Entry>) {
    forall i, j :: 0 <= i < j < |entries| ==>
      (entries[i].metric, entries[i].source) != (entries[j].metric, entries[j].source)
  }

  /** The metrics handled so far, by source. */
  datatype Handled = Handled(legacy: set<string>, stored: set<string>) {
    predicate Has(metric: string, source: Source) {
      metric in (if source == Legacy then legacy else stored)
    }

    function With(metric: string, source: Source): Handled {
      if source == Legacy then Handled(legacy + {metric}, stored) else Handled(legacy, stored + {metric})
    }
  }

  /** `entries` lists exactly the regressions among the handled metrics, each once. */
  ghost predicate ListsRegressions(x: Comparison, done: Handled, entries: seq<Entry>) {
    && NoRepeats(entries)
    && (forall e :: e in entries <==>
          (&& done.Has(e.metric, e.source) && IsRegression(x, e.metric, e.source)
           && e == EntryFor(x, e.metric, e.source)))
  }

  /** `entries` lists exactly the other changed ones, each once. */
  ghost predicate ListsOthers(x: Comparison, done: Handled, entries: seq<Entry>) {
    && NoRepeats(entries)
    && (forall e :: e in entries <==>
          (&& done.Has(e.metric, e.source) && IsOtherChange(x, e.metric, e.source)
           && e == EntryFor(x, e.metric, e.source)))
  }

  ghost predicate Listed(x: Comparison, done: Handled, regressions: seq<Entry>, others: seq<Entry>) {
    ListsRegressions(x, done, regressions) && ListsOthers(x, done, others)
  }

  lemma MoreRegressions(x: Comparison, done: Handled, entries: seq<Entry>, metric: string, source: Source)
    requires ListsRegressions(x, done, entries) && !done.Has(metric, source)
    ensures ListsRegressions(x, done.With(metric, source),
                             entries + (if IsRegression(x, metric, source) then [EntryFor(x, metric, source)] else []))
  {
    if !IsRegression(x, metric, source) {
      assert entries + [] == entries;
    }
  }

  lemma MoreOthers(x: Comparison, done: Handled, entries: seq<Entry>, metric: string, source: Source)
    requires ListsOthers(x, done, entries) && !done.Has(metric, source)
    ensures ListsOthers(x, done.With(metric, source),
                        entries + (if IsOtherChange(x, metric, source) then [EntryFor(x, metric, source)] else []))
  {
    if !IsOtherChange(x, metric, source) {
      assert entries + [] == entries;
    }
  }

  /** One comparison goes to the list it belongs to, or to none. */
  method Classify(x: Comparison, metric: string, source: Source, regressions: seq<Entry>, others: seq<Entry>,
                  ghost done: Handled)
    returns (regressions': seq<Entry>, others': seq<Entry>)
    requires Listed(x, done, regressions, others) && !done.Has(metric, source)
    ensures Listed(x, done.With(metric, source), regressions', others')
  {
    MoreRegressions(x, done, regressions, metric, source);
    MoreOthers(x, done, others, metric, source);
    regressions', others' := Place(x, metric, source, regressions, others);
  }

  /** The branches of both loops. */
  method Place(x: Comparison, metric: string, source: Source, regressions: seq<Entry>, others: seq<Entry>)
    returns (regressions': seq<Entry>, others': seq<Entry>)
    ensures regressions' ==
              regressions + (if IsRegression(x, metric, source) then [EntryFor(x, metric, source)] else [])
    ensures others' == others + (if IsOtherChange(x, metric, source) then [EntryFor(x, metric, source)] else [])
  {
    regressions', others' := regressions, others;
    var b := ValueOf(x.baseline, x.baselineRecords, metric, source);
    var c := ValueOf(x.current, x.currentRecords, metric, source);
    if b.None? || c.None? {
      return;
    }
    var tolerance := ToleranceOf(x.tolerances, metric);
    var change := c.value - b.value;
    var entry := Entry(metric, b.value, c.value, Round6(change), tolerance, DirectionOf(metric), source);
    if Worse(DirectionOf(metric), change, tolerance) {
      regressions' := regressions + [entry];
    } else if change != 0.0 {
      others' := others + [entry];
    }
  }

  // ---- What an entry means, read off the two runs alone ----

  /** The last record of that name is the i-th; it carries no error. */
  predicate SaysAt(records: seq<Record>, i: int, metric: string, value: real) {
    && 0 <= i < |records| && records[i].metric == metric && records[i].score == value
    && (records[i].error == None || records[i].error == Some(""))
    && forall j :: i < j < |records| ==> records[j].metric != metric
  }

  ghost predicate TableSays(records: Option<seq<Record>>, metric: string, value: real) {
    records.Some? && exists i :: SaysAt(records.value, i, metric, value)
  }

  /** The share of the answer without support; none without a report, or with one that does not say. */
  predicate UnsupportedIs(h: Option<Hallucination>, value: real) {
    value == if h.Some? && h.value.fractionSupported.Some? then 1.0 - h.value.fractionSupported.value else 0.0
  }

  /** The run has this value of the metric: one of its own four, or the last error-free record of that name. */
  ghost predicate Says(run: EvalRun, records: Option<seq<Record>>, metric: string, source: Source, value: real) {
    match source
    case Stored => metric != "latency" && metric != "cost" && TableSays(records, metric, value)
    case Legacy =>
      || (metric == "relevance" && run.relevance == Some(value))
      || (metric == "latency_ms" && run.latencyMs == Some(value))
      || (metric == "estimated_cost" && run.estimatedCost == Some(value))
      || (metric == "hallucination_fraction_unsupported" && UnsupportedIs(run.hallucination, value))
  }

  /** The metrics of which less is better. */
  predicate LessIsBetter(metric: string) {
    metric == "hallucination_fraction_unsupported" || metric == "latency_ms" || metric == "estimated_cost"
  }

  /** The tolerance given for the metric, 0.05 if none is; without tolerances 0.20 for latency and cost. */
  function ToleranceGiven(tolerances: Option<Tolerances>, metric: string): real {
    if tolerances.None? then (if metric == "latency_ms" || metric == "estimated_cost" then 0.20 else 0.05)
    else if metric in tolerances.value then tolerances.value[metric] else 0.05
  }

  /** The entry compares the values both runs have of its metric, from the same source. */
  ghost predicate Describes(e: Entry, baseline: EvalRun, current: EvalRun, tolerances: Option<Tolerances>,
                            baselineRecords: Option<seq<Record>>, currentRecords: Option<seq<Record>>)
  {
    && Says(baseline, baselineRecords, e.metric, e.source, e.baseline)
    && Says(current, currentRecords, e.metric, e.source, e.current)
    && e.change == Round6(e.current - e.baseline)
    && e.threshold == ToleranceGiven(tolerances, e.metric)
    && e.direction == (if LessIsBetter(e.metric) then Lower else Higher)
  }

  /** By more than the tolerance. */
  predicate GotWorse(e: Entry) {
    if LessIsBetter(e.metric) then e.baseline + e.threshold < e.current else e.current < e.baseline - e.threshold
  }

  lemma {:induction false} LastAt(records: seq<Record>, i: nat)
    requires i < |records| && forall j :: i < j < |records| ==> records[j].metric != records[i].metric
    ensures LastRecord(records, records[i].metric) == Some(records[i])
  {
    if i < |records| - 1 {
      LastAt(records[..|records| - 1], i);
    }
  }

  lemma {:induction false} LastOf(records: seq<Record>, metric: string) returns (i: nat)
    requires LastRecord(records, metric).Some?
    ensures i < |records| && records[i] == LastRecord(records, metric).value && records[i].metric == metric
    ensures forall j :: i < j < |records| ==> records[j].metric != metric
  {
    i := |records| - 1;
    if records[i].metric != metric {
      i := LastOf(records[..i], metric);
    }
  }

  lemma StoredValueIff(records: Option<seq<Record>>, metric: string, value: real)
    ensures StoredValue(records, metric) == Some(value) <==> TableSays(records, metric, value)
  {
    if TableSays(records, metric, value) {
      var i :| SaysAt(records.value, i, metric, value);
      LastAt(records.value, i);
    }
    if StoredValue(records, metric) == Some(value) {
      var i := LastOf(records.value, metric);
      assert SaysAt(records.value, i, metric, value);
    }
  }

  lemma ValueIff(run: EvalRun, records: Option<seq<Record>>, metric: string, source: Source, value: real)
    ensures ValueOf(run, records, metric, source) == Some(value) <==> Says(run, records, metric, source, value)
  {
    if source == Stored {
      StoredValueIff(records, metric, value);
    }
  }

  lemma DirectionIs(metric: string)
    ensures DirectionOf(metric) == if LessIsBetter(metric) then Lower else Higher
  {
  }

  lemma ToleranceIs(tolerances: Option<Tolerances>, metric: string)
    ensures ToleranceOf(if tolerances.Some? then tolerances.value else DEFAULT_TOLERANCES, metric)
         == ToleranceGiven(tolerances, metric)
  {
  }

  /** Both ways of saying that a regression, or another change, is listed with this entry. */
  lemma ListedIff(e: Entry, baseline: EvalRun, current: EvalRun, tolerances: Option<Tolerances>,
                  baselineRecords: Option<seq<Record>>, currentRecords: Option<seq<Record>>)
    ensures var x := Comparison(baseline, current, if tolerances.Some? then tolerances.value else DEFAULT_TOLERANCES,
                                baselineRecords, currentRecords);
      var described := Describes(e, baseline, current, tolerances, baselineRecords, currentRecords);
      && (IsRegression(x, e.metric, e.source) && e == EntryFor(x, e.metric, e.source) <==> described && GotWorse(e))
      && (IsOtherChange(x, e.metric, e.source) && e == EntryFor(x, e.metric, e.source) <==>
            described && !GotWorse(e) && e.baseline != e.current)
  {
    ValueIff(baseline, baselineRecords, e.metric, e.source, e.baseline);
    ValueIff(current, currentRecords, e.metric, e.source, e.current);
    DirectionIs(e.metric);
    ToleranceIs(tolerances, e.metric);
  }

  function Names(records: seq<Record>): set<string> {
    set r | r in records :: r.metric
  }

  lemma {:induction false} UnnamedHasNoRecord(records: seq<Record>, metric: string)
    ensures LastRecord(records, metric).Some? <==> metric in Names(records)
  {
    if records != [] {
      var n := |records| - 1;
      UnnamedHasNoRecord(records[..n], metric);
      assert records == records[..n] + [records[n]];
    }
  }

  /** All metrics either loop visits. */
  ghost function Visited(x: Comparison): Handled {
    Handled(LEGACY_SET,
            if x.baselineRecords.Some? && x.currentRecords.Some?
            then Names(x.baselineRecords.value) + Names(x.currentRecords.value) else {})
  }

  lemma LegacyNames(run: EvalRun, metric: string)
    requires LegacyValue(run, metric).Some?
    ensures metric in LEGACY
  {
    assert metric in {LEGACY[0], LEGACY[1], LEGACY[2], LEGACY[3]};
  }

  /** Every comparable metric is visited. */
  lemma AllHandled(x: Comparison)
    ensures forall metric, source :: Compared(x, metric, source).Some? ==> Visited(x).Has(metric, source)
  {
    forall metric, source | Compared(x, metric, source).Some? ensures Visited(x).Has(metric, source) {
      if source == Stored {
        UnnamedHasNoRecord(x.baselineRecords.value, metric);
      } else {
        LegacyNames(x.baseline, metric);
      }
    }
  }

  /** The first loop. */
  method CompareLegacy(x: Comparison) returns (regressions: seq<Entry>, others: seq<Entry>)
    ensures Listed(x, Handled(LEGACY_SET, {}), regressions, others)
  {
    regressions, others := [], [];
    ghost var done := Handled({}, {});
    for i := 0 to |LEGACY|
      invariant done == Handled(set k | 0 <= k < i :: LEGACY[k], {})
      invariant Listed(x, done, regressions, others)
    {
      assert LEGACY[i] !in done.legacy;
      regressions, others := Classify(x, LEGACY[i], Legacy, regressions, others, done);
      done := done.With(LEGACY[i], Legacy);
    }
    assert done.legacy == LEGACY_SET;
  }

  /** The second loop. */
  method CompareTables(x: Comparison, baselineRecords: seq<Record>, currentRecords: seq<Record>,
                       before: seq<Entry>, othersBefore: seq<Entry>)
    returns (regressions: seq<Entry>, others: seq<Entry>)
    requires Listed(x, Handled(LEGACY_SET, {}), before, othersBefore)
    ensures Listed(x, Handled(LEGACY_SET, Names(baselineRecords) + Names(currentRecords)), regressions, others)
  {
    regressions, others := before, othersBefore;
    var all := Names(baselineRecords) + Names(currentRecords);
    var rest := all;
    ghost var done := Handled(LEGACY_SET, {});
    while rest != {}
      invariant rest <= all && done == Handled(LEGACY_SET, all - rest)
      invariant Listed(x, done, regressions, others)
      decreases rest
    {
      var metric :| metric in rest;
      rest := rest - {metric};
      regressions, others := Classify(x, metric, Stored, regressions, others, done);
      done := done.With(metric, Stored);
    }
  }

  /** The comparison of two runs. The table's metrics are visited in no particular order. `regressions` holds exactly
      the metrics that got worse by more than their tolerance, `improvements` exactly the other changed ones, each
      metric and source at most once; a table counts only if both are there, and in it only the last record of a name,
      if without an error. */
  method DetectRegressions(baseline: EvalRun, current: EvalRun, tolerances: Option<Tolerances>,
                           baselineRecords: Option<seq<Record>>, currentRecords: Option<seq<Record>>)
    returns (detected: bool, regressions: seq<Entry>, improvements: seq<Entry>)
    ensures var x := Comparison(baseline, current, if tolerances.Some? then tolerances.value else DEFAULT_TOLERANCES,
                                baselineRecords, currentRecords);
      && NoRepeats(regressions) && NoRepeats(improvements)
      && (detected <==> exists metric, source :: IsRegression(x, metric, source))
    ensures detected <==> regressions != []
    ensures forall e :: e in regressions <==>
              Describes(e, baseline, current, tolerances, baselineRecords, currentRecords) && GotWorse(e)
    ensures forall e :: e in improvements <==>
              && Describes(e, baseline, current, tolerances, baselineRecords, currentRecords)
              && !GotWorse(e) && e.baseline != e.current
  {
    var x := Comparison(baseline, current, if tolerances.Some? then tolerances.value else DEFAULT_TOLERANCES,
                        baselineRecords, currentRecords);
    regressions, improvements := CompareLegacy(x);
    if baselineRecords.Some? && currentRecords.Some? {
      regressions, improvements :=
        CompareTables(x, baselineRecords.value, currentRecords.value, regressions, improvements);
    }
    AllHandled(x);
    forall e
      ensures e in regressions <==>
                Describes(e, baseline, current, tolerances, baselineRecords, currentRecords) && GotWorse(e)
      ensures e in improvements <==>
                && Describes(e, baseline, current, tolerances, baselineRecords, currentRecords)
                && !GotWorse(e) && e.baseline != e.current
    {
      ListedIff(e, baseline, current, tolerances, baselineRecords, currentRecords);
    }
    detected := regressions != [];
    if metric, source :| IsRegression(x, metric, source) {
      assert EntryFor(x, metric, source) in regressions;
    }
    if regressions != [] {
      assert regressions[0] in regressions;
    }
  }

  // ---- What the verdicts mean ----

  /** The same comparison with the two runs exchanged. */
  function Swapped(x: Comparison): Comparison {
    x.(baseline := x.current, current := x.baseline,
       baselineRecords := x.currentRecords, currentRecords := x.baselineRecords)
  }

  ghost predicate NonNegative(tolerances: Tolerances) {
    forall metric :: metric in tolerances ==> 0.0 <= tolerances[metric]
  }

  /** With non-negative tolerances, exchanging the runs leaves the changed metrics the same, and nothing regresses
      in both directions. */
  lemma SwapExchangesVerdicts(x: Comparison, metric: string, source: Source)
    requires NonNegative(x.tolerances)
    ensures !(IsRegression(x, metric, source) && IsRegression(Swapped(x), metric, source))
    ensures IsRegression(x, metric, source) || IsOtherChange(x, metric, source) <==>
            IsRegression(Swapped(x), metric, source) || IsOtherChange(Swapped(x), metric, source)
    ensures IsUnchanged(x, metric, source) <==> IsUnchanged(Swapped(x), metric, source)
    ensures Compared(x, metric, source).Some? ==>
              EntryFor(Swapped(x), metric, source).change == -EntryFor(x, metric, source).change
  {
    if Compared(x, metric, source).Some? {
      var (b, c) := Compared(x, metric, source).value;
      Round6Odd(c - b);
      assert b - c == -(c - b);
    }
  }

  /** A run compared with itself regresses in a metric exactly when that metric's tolerance is negative. */
  lemma SelfComparisonIff(run: EvalRun, records: Option<seq<Record>>, tolerances: Tolerances, metric: string,
                          source: Source)
    ensures var x := Comparison(run, run, tolerances, records, records);
      IsRegression(x, metric, source) <==>
        ValueOf(run, records, metric, source).Some? && ToleranceOf(tolerances, metric) < 0.0
  {
  }

  /** Tolerated worsening adds up: if neither step regresses within its tolerance, the two steps together do not
      regress within the sum, for every metric all three runs have. */
  lemma TolerancesAddUp(a: EvalRun, b: EvalRun, c: EvalRun,
                        aRecords: Option<seq<Record>>, bRecords: Option<seq<Record>>, cRecords: Option<seq<Record>>,
                        t1: Tolerances, t2: Tolerances, sum: Tolerances, metric: string, source: Source)
    requires ToleranceOf(sum, metric) == ToleranceOf(t1, metric) + ToleranceOf(t2, metric)
    requires ValueOf(b, bRecords, metric, source).Some?
    requires !IsRegression(Comparison(a, b, t1, aRecords, bRecords), metric, source)
    requires !IsRegression(Comparison(b, c, t2, bRecords, cRecords), metric, source)
    ensures !IsRegression(Comparison(a, c, sum, aRecords, cRecords), metric, source)
  {
    var v := ValueOf(b, bRecords, metric, source).value;
    if Compared(Comparison(a, c, sum, aRecords, cRecords), metric, source).Some? {
      var (va, vc) := Compared(Comparison(a, c, sum, aRecords, cRecords), metric, source).value;
      assert Compared(Comparison(a, b, t1, aRecords, bRecords), metric, source) == Some((va, v));
      assert Compared(Comparison(b, c, t2, bRecords, cRecords), metric, source) == Some((v, vc));
    }
  }

  /** How much worse the current value is, in the metric's own direction. */
  function Worsening(metric: string, b: real, c: real): real {
    if DirectionOf(metric) == Higher then b - c else c - b
  }

  /** An entry under `improvements` is an actual improvement exactly when the metric got better: a metric that got
      worse within its tolerance is listed there too. */
  lemma ListedImprovementIff(x: Comparison, metric: string, source: Source)
    requires Compared(x, metric, source).Some? && 0.0 <= ToleranceOf(x.tolerances, metric)
    ensures var (b, c) := Compared(x, metric, source).value;
      && (IsOtherChange(x, metric, source) <==>
            Worsening(metric, b, c) < 0.0 || 0.0 < Worsening(metric, b, c) <= ToleranceOf(x.tolerances, metric))
      && (IsRegression(x, metric, source) <==> ToleranceOf(x.tolerances, metric) < Worsening(metric, b, c))
  {
  }
}
