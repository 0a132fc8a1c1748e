/** The built-in evaluation profiles, the registry loop that runs their evaluators, and what the composite of an
    error-free run of each profile amounts to. */
module Profiles {
  import opened Options
  import opened Rounding
  import opened Composite
  import opened CompositeLaws

  datatype Profile = Profile(evaluators: seq<string>, useJudge: bool, weights: Weights)

  const UNSUPPORTED := "hallucination_fraction_unsupported"

  const RAG := Profile(
    ["relevance", "hallucination", "latency", "cost", "faithfulness", "context_precision", "context_recall",
     "answer_relevancy"],
    false,
    [("relevance", 0.15), ("faithfulness", 0.25), ("context_precision", 0.15), ("context_recall", 0.15),
     ("answer_relevancy", 0.15), (UNSUPPORTED, 0.15)])

  const RAG_STRICT := Profile(
    ["relevance", "hallucination", "latency", "cost", "faithfulness", "context_precision", "context_recall",
     "answer_relevancy", "citation_correctness"],
    false,
    [("relevance", 0.10), ("faithfulness", 0.20), ("context_precision", 0.15), ("context_recall", 0.15),
     ("answer_relevancy", 0.15), ("citation_correctness", 0.15), (UNSUPPORTED, 0.10)])

  const JUDGE := Profile(
    ["relevance", "hallucination", "latency", "cost", "faithfulness", "context_precision", "context_recall",
     "answer_relevancy", "citation_correctness"],
    true,
    [("relevance", 0.10), ("faithfulness", 0.15), ("context_precision", 0.10), ("context_recall", 0.10),
     ("answer_relevancy", 0.10), ("citation_correctness", 0.10), (UNSUPPORTED, 0.10), ("llm_judge", 0.25)])

  /** What an evaluator does on a sample: a result (possibly with an error), or an exception. */
  datatype Verdict =
    | Returns(score: real, version: string, error: Option<string>)
    | Raises(version: string, message: string)

  /** The evaluators the registry can create; each one names its results after itself. */
  predicate Registered(name: string) {
    name in {"relevance", "hallucination", "latency", "cost", "faithfulness", "context_precision", "context_recall",
             "answer_relevancy", "citation_correctness", "llm_judge"}
  }

  function ResultOf(name: string, oracle: string -> Verdict): MetricResult {
    if !Registered(name) then MetricResult(name, 0.0, "0.0.0", Some("evaluator '" + name + "' not found"))
    else match oracle(name)
      case Returns(score, version, error) => MetricResult(name, score, version, error)
      case Raises(version, message) => MetricResult(name, 0.0, version, Some(message))
  }

  /** What a result under a name tells: the evaluator's own score, version and error if it returned, score 0 and the
      message as error if it raised, score 0 and some error if there is no such evaluator. */
  ghost predicate Tells(r: MetricResult, name: string, oracle: string -> Verdict) {
    && r.metric == name
    && (!Registered(name) ==> r.score == 0.0 && r.error.Some? && r.error.value != "")
    && (Registered(name) && oracle(name).Returns? ==>
          r.score == oracle(name).score && r.version == oracle(name).version && r.error == oracle(name).error)
    && (Registered(name) && oracle(name).Raises? ==>
          r.score == 0.0 && r.version == oracle(name).version && r.error == Some(oracle(name).message))
  }

  /** One result per requested evaluator, in order and under its name, then the judge's if it was asked for and is
      not among them. */
  method RunEvaluators(names: seq<string>, useJudge: bool, oracle: string -> Verdict)
    returns (results: seq<MetricResult>)
    ensures var all := if useJudge && "llm_judge" !in names then names + ["llm_judge"] else names;
      |results| == |all| && forall k :: 0 <= k < |all| ==>
        Tells(results[k], all[k], oracle) && results[k] == ResultOf(all[k], oracle)
  {
    results := [];
    for i := 0 to |names|
      invariant |results| == i
      invariant forall k :: 0 <= k < i ==> results[k] == ResultOf(names[k], oracle)
    {
      var name := names[i];
      if !Registered(name) {
        results := results + [MetricResult(name, 0.0, "0.0.0", Some("evaluator '" + name + "' not found"))];
        continue;
      }
      match oracle(name) {
        case Returns(score, version, error) => results := results + [MetricResult(name, score, version, error)];
        case Raises(version, message) => results := results + [MetricResult(name, 0.0, version, Some(message))];
      }
    }
    if useJudge && "llm_judge" !in names {
      results := results + [ResultOf("llm_judge", oracle)];
    }
  }

  /** The names a profile's run emits. */
  function Emitted(p: Profile): seq<string> {
    if p.useJudge && "llm_judge" !in p.evaluators then p.evaluators + ["llm_judge"] else p.evaluators
  }

  /** The results of a run of the profile in which no evaluator failed. */
  ghost predicate ErrorFreeRun(p: Profile, results: seq<MetricResult>) {
    && |results| == |Emitted(p)|
    && forall k :: 0 <= k < |results| ==>
         results[k].metric == Emitted(p)[k] && !Errored(results[k])
  }

  lemma {:induction false} LookupByName(results: seq<MetricResult>, metric: string)
    ensures Lookup(results, metric).Some? <==> exists k :: 0 <= k < |results| && results[k].metric == metric
  {
    if results != [] {
      var n := |results| - 1;
      LookupByName(results[..n], metric);
      if k :| 0 <= k < n && results[k].metric == metric {
        assert results[..n][k].metric == metric;
      }
    }
  }

  /** Without errors a metric is usable exactly when some result carries its name. */
  lemma PresentByName(results: seq<MetricResult>, metric: string)
    requires forall k :: 0 <= k < |results| ==> !Errored(results[k])
    ensures Present(results, metric) <==> exists k :: 0 <= k < |results| && results[k].metric == metric
  {
    LookupByName(results, metric);
    if Lookup(results, metric).Some? {
      LookupIsThere(results, metric);
    }
  }

  /** One weighted metric absent, all others present. */
  lemma {:induction false} OneAbsent(results: seq<MetricResult>, normal: Weights, absent: nat)
    requires absent < |normal|
    requires forall k :: 0 <= k < |normal| ==> (Present(results, normal[k].0) <==> k != absent)
    ensures Missing(results, normal) == [normal[absent].0]
    ensures PresentWeight(results, normal) == TotalWeight(normal) - normal[absent].1
  {
    var n := |normal| - 1;
    if absent < n {
      OneAbsent(results, normal[..n], absent);
    } else {
      NoneAbsent(results, normal[..n]);
    }
  }

  lemma {:induction false} NoneAbsent(results: seq<MetricResult>, normal: Weights)
    requires forall k :: 0 <= k < |normal| ==> Present(results, normal[k].0)
    ensures Missing(results, normal) == []
    ensures PresentWeight(results, normal) == TotalWeight(normal)
  {
    if normal != [] {
      NoneAbsent(results, normal[..|normal| - 1]);
    }
  }

  lemma TotalOfSix(a: (string, real), b: (string, real), c: (string, real), d: (string, real), e: (string, real),
                   f: (string, real))
    ensures TotalWeight([a, b, c, d, e, f]) == a.1 + b.1 + c.1 + d.1 + e.1 + f.1
  {
    assert [a, b, c, d, e, f][..5] == [a, b, c, d, e] && [a, b, c, d, e][..4] == [a, b, c, d];
    assert [a, b, c, d][..3] == [a, b, c] && [a, b, c][..2] == [a, b] && [a, b][..1] == [a] && [a][..0] == [];
    assert TotalWeight([a]) == a.1;
    assert TotalWeight([a, b]) == a.1 + b.1;
    assert TotalWeight([a, b, c]) == a.1 + b.1 + c.1;
    assert TotalWeight([a, b, c, d]) == a.1 + b.1 + c.1 + d.1;
  }

  lemma ProfileTotals()
    ensures TotalWeight(RAG.weights) == 1.0 && TotalWeight(RAG_STRICT.weights) == 1.0
    ensures TotalWeight(JUDGE.weights) == 1.0
  {
    var r := RAG.weights;
    TotalOfSix(r[0], r[1], r[2], r[3], r[4], r[5]);
    assert r == [r[0], r[1], r[2], r[3], r[4], r[5]];
    var t := RAG_STRICT.weights;
    TotalOfSix(t[0], t[1], t[2], t[3], t[4], t[5]);
    assert t[..6] == [t[0], t[1], t[2], t[3], t[4], t[5]];
    var j := JUDGE.weights;
    TotalOfSix(j[0], j[1], j[2], j[3], j[4], j[5]);
    assert j[..7][..6] == [j[0], j[1], j[2], j[3], j[4], j[5]];
    assert TotalWeight(j[..7]) == TotalWeight(j[..7][..6]) + j[6].1;
  }

  /** The weights of a profile add up to 1. */
  lemma NormalAlready(p: Profile)
    requires p == RAG || p == RAG_STRICT || p == JUDGE
    ensures TotalWeight(p.weights) == 1.0 && Normalized(p.weights) == p.weights
  {
    ProfileTotals();
    DividedEntries(p.weights, 1.0);
  }

  /** The weight a profile puts on the metric that no evaluator emits, and where it stands. */
  function AbsentAt(p: Profile): nat {
    if p == RAG then 5 else 6
  }

  /** The composite of an error-free run of a weighted profile: the metric named UNSUPPORTED is always missing, so the
      weighted sum of the others is divided by that metric's weight alone and capped at 1. */
  lemma ProfileComposite(p: Profile, results: seq<MetricResult>)
    requires p == RAG || p == RAG_STRICT || p == JUDGE
    requires ErrorFreeRun(p, results)
    ensures TotalWeight(p.weights) == 1.0
    ensures p.weights[AbsentAt(p)].0 == UNSUPPORTED
    ensures Missing(results, Normalized(p.weights)) == [UNSUPPORTED]
    ensures var weight := p.weights[AbsentAt(p)].1;
      var sum := WeightedSum(results, p.weights);
      CompositeScore(results, p.weights) == Round4(if sum < weight then sum / weight else 1.0)
  {
    var weights := p.weights;
    NormalAlready(p);
    forall k | 0 <= k < |weights| ensures Present(results, weights[k].0) <==> k != AbsentAt(p) {
      EmittedIffWeighted(p, k);
      PresentByName(results, weights[k].0);
      if k != AbsentAt(p) {
        var m :| 0 <= m < |Emitted(p)| && Emitted(p)[m] == weights[k].0;
        assert results[m].metric == weights[k].0;
      }
    }
    OneAbsent(results, weights, AbsentAt(p));
    CappedQuotient(WeightedSum(results, weights), weights[AbsentAt(p)].1);
  }

  lemma CappedQuotient(sum: real, weight: real)
    requires 0.0 < weight < 1.0
    ensures RawFrom(sum, 1.0 - weight, true) == if sum < weight then sum / weight else 1.0
  {
    var q := sum * (1.0 / weight);
    assert q == sum / weight && q * weight == sum;
    ProductOrder(q, 1.0, weight);
    ProductOrder(1.0, q, weight);
  }

  /** Every weighted metric but UNSUPPORTED is among the names a profile's run emits. */
  lemma EmittedIffWeighted(p: Profile, k: nat)
    requires p == RAG || p == RAG_STRICT || p == JUDGE
    requires k < |p.weights|
    ensures (exists m :: 0 <= m < |Emitted(p)| && Emitted(p)[m] == p.weights[k].0) <==> k != AbsentAt(p)
  {
    var e := Emitted(p);
    assert e[0] == "relevance" && e[4] == "faithfulness" && e[5] == "context_precision";
    assert e[6] == "context_recall" && e[7] == "answer_relevancy";
    assert p != RAG ==> e[8] == "citation_correctness";
    assert p == JUDGE ==> "llm_judge" !in p.evaluators && e[9] == "llm_judge";
  }

  /** An error-free run of a weighted profile scores a perfect 1 as soon as its weighted sum reaches 0.99995 of the
      absent metric's weight: for `rag`, whenever the sum is at least 0.1499925 out of a possible 0.85. */
  lemma ProfileSaturatesIff(p: Profile, results: seq<MetricResult>)
    requires p == RAG || p == RAG_STRICT || p == JUDGE
    requires ErrorFreeRun(p, results)
    ensures TotalWeight(p.weights) == 1.0
    ensures CompositeScore(results, p.weights) == 1.0 <==>
            0.99995 * p.weights[AbsentAt(p)].1 <= WeightedSum(results, p.weights)
  {
    ProfileComposite(p, results);
    var weight, sum := p.weights[AbsentAt(p)].1, WeightedSum(results, p.weights);
    if sum < weight {
      var q := sum / weight;
      assert q * weight == sum;
      ProductOrder(q, 0.99995, weight);
      ProductOrder(0.99995, q, weight);
      ProductOrder(q, 1.0, weight);
      ProductOrder(1.0, q, weight);
      HalfEvenIsNearest(q * 10000.0, 10000);
    } else {
      Round4Close(1.0);
    }
  }

  // ---- The three profiles in full ----

  /** The evaluator raised an exception that has a message, or returned an error of its own. */
  predicate Fails(v: Verdict) {
    (v.Raises? && v.message != "") || (v.Returns? && v.error.Some? && v.error.value != "")
  }

  /** No name is emitted twice, and each has an evaluator. */
  lemma EmittedOnce(p: Profile)
    requires p == RAG || p == RAG_STRICT || p == JUDGE
    ensures forall i, j :: 0 <= i < j < |Emitted(p)| ==> Emitted(p)[i] != Emitted(p)[j]
    ensures forall k :: 0 <= k < |Emitted(p)| ==> Registered(Emitted(p)[k])
  {
    var e := Emitted(p);
    assert |e[0]| == 9 && |e[1]| == 13 && |e[2]| == 7 && |e[3]| == 4 && |e[4]| == 12 && |e[5]| == 17;
    assert |e[6]| == 14 && |e[7]| == 16;
    assert p != RAG ==> |e[8]| == 20;
    assert p == JUDGE ==> "llm_judge" !in p.evaluators && e[9] == "llm_judge" && e[0][0] == 'r';
  }

  /** Whether the evaluator of a weighted metric failed decides whether the metric counts. */
  lemma PresentUnlessFailed(p: Profile, results: seq<MetricResult>, oracle: string -> Verdict, k: nat)
    requires p == RAG || p == RAG_STRICT || p == JUDGE
    requires |results| == |Emitted(p)| && k < |p.weights|
    requires forall i :: 0 <= i < |results| ==> Tells(results[i], Emitted(p)[i], oracle)
    ensures Present(results, p.weights[k].0) <==> k != AbsentAt(p) && !Fails(oracle(p.weights[k].0))
  {
    EmittedOnce(p);
    EmittedIffWeighted(p, k);
    LookupByName(results, p.weights[k].0);
    if i :| 0 <= i < |results| && results[i].metric == p.weights[k].0 {
      LookupAt(results, i);
    }
  }

  lemma {:induction false} MissingIff(results: seq<MetricResult>, weights: Weights, metric: string)
    ensures metric in Missing(results, weights) <==>
            exists k :: 0 <= k < |weights| && weights[k].0 == metric && !Present(results, metric)
  {
    if weights != [] {
      var n := |weights| - 1;
      MissingIff(results, weights[..n], metric);
      if k :| 0 <= k < n && weights[k].0 == metric {
        assert weights[..n][k].0 == metric;
      }
    }
  }

  lemma MissingUnless(p: Profile, results: seq<MetricResult>, oracle: string -> Verdict, k: nat)
    requires p == RAG || p == RAG_STRICT || p == JUDGE
    requires |results| == |Emitted(p)| && k < |p.weights|
    requires forall i :: 0 <= i < |results| ==> Tells(results[i], Emitted(p)[i], oracle)
    ensures p.weights[k].0 in Missing(results, p.weights) <==>
              p.weights[k].0 == UNSUPPORTED || Fails(oracle(p.weights[k].0))
  {
    PresentUnlessFailed(p, results, oracle, k);
    MissingIff(results, p.weights, p.weights[k].0);
    AbsentIsUnsupported(p, k);
  }

  lemma AbsentIsUnsupported(p: Profile, k: nat)
    requires (p == RAG || p == RAG_STRICT || p == JUDGE) && k < |p.weights|
    ensures p.weights[k].0 == UNSUPPORTED <==> k == AbsentAt(p)
  {
    var w := p.weights;
    assert |w[0].0| == 9 && |w[1].0| == 12 && |w[2].0| == 17 && |w[3].0| == 14 && |w[4].0| == 16 && |UNSUPPORTED| == 34;
    assert p != RAG ==> |w[5].0| == 20;
    assert p == JUDGE ==> |w[7].0| == 9;
  }

  lemma MissingUnlessReturned(p: Profile, results: seq<MetricResult>, oracle: string -> Verdict)
    requires p == RAG || p == RAG_STRICT || p == JUDGE
    requires |results| == |Emitted(p)|
    requires forall i :: 0 <= i < |results| ==> Tells(results[i], Emitted(p)[i], oracle)
    ensures TotalWeight(p.weights) == 1.0
    ensures forall k :: 0 <= k < |p.weights| ==>
              (p.weights[k].0 in Missing(results, Normalized(p.weights)) <==>
                 p.weights[k].0 == UNSUPPORTED || Fails(oracle(p.weights[k].0)))
  {
    NormalAlready(p);
    forall k | 0 <= k < |p.weights|
      ensures p.weights[k].0 in Missing(results, p.weights) <==>
                p.weights[k].0 == UNSUPPORTED || Fails(oracle(p.weights[k].0))
    {
      MissingUnless(p, results, oracle, k);
    }
  }

  function Capped(sum: real, weight: real): real
    requires weight != 0.0
  {
    Round4(if sum < weight then sum / weight else 1.0)
  }

  /** What one weight adds to the weighted sum. */
  function Part(results: seq<MetricResult>, weight: (string, real)): real {
    if Present(results, weight.0) then Times(Score(results, weight.0), weight.1) else 0.0
  }

  lemma SumOfFour(results: seq<MetricResult>, w: Weights)
    requires 4 <= |w|
    ensures WeightedSum(results, w[..4]) == Part(results, w[0]) + Part(results, w[1]) + Part(results, w[2])
                                          + Part(results, w[3])
  {
    assert w[..4][..3] == w[..3] && w[..3][..2] == w[..2] && w[..2][..1] == w[..1] && w[..1][..0] == [];
    assert WeightedSum(results, w[..1]) == Part(results, w[0]);
    assert WeightedSum(results, w[..2]) == WeightedSum(results, w[..1]) + Part(results, w[1]);
    assert WeightedSum(results, w[..3]) == WeightedSum(results, w[..2]) + Part(results, w[2]);
  }

  lemma SumOfSix(results: seq<MetricResult>, w: Weights)
    requires 6 <= |w|
    ensures WeightedSum(results, w[..6]) == Part(results, w[0]) + Part(results, w[1]) + Part(results, w[2])
                                          + Part(results, w[3]) + Part(results, w[4]) + Part(results, w[5])
  {
    SumOfFour(results, w);
    assert w[..6][..5] == w[..5] && w[..5][..4] == w[..4];
    assert WeightedSum(results, w[..5]) == WeightedSum(results, w[..4]) + Part(results, w[4]);
  }

  lemma SumOfSeven(results: seq<MetricResult>, w: Weights)
    requires 7 <= |w|
    ensures WeightedSum(results, w[..7]) == WeightedSum(results, w[..6]) + Part(results, w[6])
  {
    assert w[..7][..6] == w[..6];
  }

  lemma SumOfEight(results: seq<MetricResult>, w: Weights)
    requires 8 <= |w|
    ensures WeightedSum(results, w[..8]) == WeightedSum(results, w[..7]) + Part(results, w[7])
  {
    assert w[..8][..7] == w[..7];
  }

  /** A weighted metric with the i-th result adds that result's score times its weight. */
  lemma PartAt(p: Profile, results: seq<MetricResult>, k: nat, i: nat)
    requires p == RAG || p == RAG_STRICT || p == JUDGE
    requires ErrorFreeRun(p, results) && k < |p.weights| && i < |results|
    requires Emitted(p)[i] == p.weights[k].0
    ensures Part(results, p.weights[k]) == Times(results[i].score, p.weights[k].1)
  {
    EmittedOnce(p);
    LookupAt(results, i);
  }

  /** No result carries the name UNSUPPORTED. */
  lemma NoPart(p: Profile, results: seq<MetricResult>)
    requires p == RAG || p == RAG_STRICT || p == JUDGE
    requires ErrorFreeRun(p, results)
    ensures Part(results, p.weights[AbsentAt(p)]) == 0.0
  {
    EmittedIffWeighted(p, AbsentAt(p));
    PresentByName(results, p.weights[AbsentAt(p)].0);
  }

  lemma RagSum(r: seq<MetricResult>)
    requires ErrorFreeRun(RAG, r)
    ensures WeightedSum(r, RAG.weights) == 0.15 * r[0].score + 0.25 * r[4].score
                                         + 0.15 * (r[5].score + r[6].score + r[7].score)
  {
    SumOfSix(r, RAG.weights);
    assert RAG.weights[..6] == RAG.weights;
    PartAt(RAG, r, 0, 0);
    PartAt(RAG, r, 1, 4);
    PartAt(RAG, r, 2, 5);
    PartAt(RAG, r, 3, 6);
    PartAt(RAG, r, 4, 7);
    NoPart(RAG, r);
  }

  lemma RagStrictSum(r: seq<MetricResult>)
    requires ErrorFreeRun(RAG_STRICT, r)
    ensures WeightedSum(r, RAG_STRICT.weights) == 0.10 * r[0].score + 0.20 * r[4].score
                                                + 0.15 * (r[5].score + r[6].score + r[7].score + r[8].score)
  {
    SumOfSix(r, RAG_STRICT.weights);
    SumOfSeven(r, RAG_STRICT.weights);
    assert RAG_STRICT.weights[..7] == RAG_STRICT.weights;
    PartAt(RAG_STRICT, r, 0, 0);
    PartAt(RAG_STRICT, r, 1, 4);
    PartAt(RAG_STRICT, r, 2, 5);
    PartAt(RAG_STRICT, r, 3, 6);
    PartAt(RAG_STRICT, r, 4, 7);
    PartAt(RAG_STRICT, r, 5, 8);
    NoPart(RAG_STRICT, r);
  }

  lemma JudgeEmits()
    ensures Emitted(JUDGE) == JUDGE.evaluators + ["llm_judge"]
  {
    assert forall name :: name in JUDGE.evaluators ==> |name| != 9 || name[0] == 'r';
  }

  lemma JudgeFirstSix(r: seq<MetricResult>)
    requires ErrorFreeRun(JUDGE, r) && |r| == 10
    ensures WeightedSum(r, JUDGE.weights[..6]) == 0.10 * r[0].score + 0.15 * r[4].score
                                                + 0.10 * (r[5].score + r[6].score + r[7].score + r[8].score)
  {
    SumOfSix(r, JUDGE.weights);
    JudgeEmits();
    PartAt(JUDGE, r, 0, 0);
    PartAt(JUDGE, r, 1, 4);
    PartAt(JUDGE, r, 2, 5);
    PartAt(JUDGE, r, 3, 6);
    PartAt(JUDGE, r, 4, 7);
    PartAt(JUDGE, r, 5, 8);
  }

  lemma JudgeLastTwo(r: seq<MetricResult>)
    requires ErrorFreeRun(JUDGE, r) && |r| == 10
    ensures Part(r, JUDGE.weights[6]) == 0.0 && Part(r, JUDGE.weights[7]) == 0.25 * r[9].score
  {
    JudgeEmits();
    PartAt(JUDGE, r, 7, 9);
    NoPart(JUDGE, r);
  }

  lemma JudgeSum(r: seq<MetricResult>)
    requires ErrorFreeRun(JUDGE, r) && |r| == 10
    ensures WeightedSum(r, JUDGE.weights) == 0.10 * r[0].score + 0.15 * r[4].score + 0.25 * r[9].score
                                           + 0.10 * (r[5].score + r[6].score + r[7].score + r[8].score)
  {
    JudgeFirstSix(r);
    JudgeLastTwo(r);
    var w := JUDGE.weights;
    SumOfSeven(r, w);
    SumOfEight(r, w);
    assert w[..8] == w;
  }

  /** Running a weighted profile and scoring it. A weighted metric is missing exactly when it is UNSUPPORTED or its
      evaluator failed; whenever none failed, the score is the weighted sum over the weight of UNSUPPORTED, capped
      at 1. */
  method ScoreProfile(p: Profile, oracle: string -> Verdict) returns (results: seq<MetricResult>, report: Report)
    requires p == RAG || p == RAG_STRICT || p == JUDGE
    ensures |results| == |Emitted(p)|
    ensures forall k :: 0 <= k < |results| ==>
              Tells(results[k], Emitted(p)[k], oracle) && results[k] == ResultOf(Emitted(p)[k], oracle)
    ensures report.Scored? && TotalWeight(p.weights) == 1.0 && report.score == CompositeScore(results, p.weights)
    ensures forall k :: 0 <= k < |p.weights| ==>
              (p.weights[k].0 in report.missing <==> p.weights[k].0 == UNSUPPORTED || Fails(oracle(p.weights[k].0)))
    ensures ErrorFreeRun(p, results) ==>
              && report.missing == [UNSUPPORTED]
              && var weight, sum := p.weights[AbsentAt(p)].1, WeightedSum(results, p.weights);
                 report.score == Round4(if sum < weight then sum / weight else 1.0)
  {
    results := RunEvaluators(p.evaluators, p.useJudge, oracle);
    ProfileTotals();
    report := ComputeComposite(results, p.weights);
    MissingUnlessReturned(p, results, oracle);
    if ErrorFreeRun(p, results) {
      ProfileComposite(p, results);
    }
  }
}
