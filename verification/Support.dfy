/**
 The three evaluators that count supported sentences - hallucination, faithfulness and context recall - as their own
 loops around one inference oracle, and why they agree.
 */
module Support {
  import opened Options
  import opened Rounding
  import opened Sentences

  /** What the inference model answers for a prompt: an (upper-cased) label with a score, or an exception. */
  datatype Nli = Labelled(tag: string, score: real) | Fails(message: string)

  /** `context` holds the texts of the chunks. */
  datatype Sample = Sample(answer: string, context: seq<string>, referenceAnswer: string)

  /** An evaluator's result; an error result counts as score 0, not passed. */
  datatype Outcome<D> = Judged(score: real, passed: bool, details: D) | Error(message: string) {
    function Score(): real { if Judged? then score else 0.0 }
    predicate Passed() { Judged? && passed }
  }

  datatype Claim = Claim(sentence: string, supported: bool, tag: string, confidence: real)
  datatype Flag = Flag(sentence: string, tag: string)
  datatype Detail = Detail(sentence: string, tag: string, score: real)
  datatype Report = Report(fractionSupported: real, flags: seq<Flag>, details: seq<Detail>)
  datatype Claims = Claims(total: nat, supported: nat, claims: seq<Claim>)

  function Premise(context: seq<string>): string {
    if context == [] then ""
    else if |context| == 1 then context[0]
    else context[0] + " " + Premise(context[1..])
  }

  /** The texts of the chunks with a space between each two. */
  lemma {:induction false} PremiseJoins(first: seq<string>, second: seq<string>)
    requires first != [] && second != []
    ensures Premise(first + second) == Premise(first) + " " + Premise(second)
    ensures |first| == 1 ==> Premise(first) == first[0]
  {
    assert (first + second)[1..] == first[1..] + second;
    if 1 < |first| {
      PremiseJoins(first[1..], second);
    } else {
      assert first[1..] + second == second;
    }
  }

  function Prompt(premise: string, sentence: string): string {
    premise + " </s></s> " + sentence
  }

  predicate Entails(tag: string) {
    tag == "ENTAILMENT" || tag == "LABEL_2"
  }

  predicate Contradicts(tag: string) {
    tag == "CONTRADICTION" || tag == "LABEL_0"
  }

  predicate Supported(premise: string, sentence: string, nli: string -> Nli) {
    nli(Prompt(premise, sentence)).Labelled? && Entails(nli(Prompt(premise, sentence)).tag)
  }

  function SupportCount(premise: string, sentences: seq<string>, nli: string -> Nli): (n: nat)
    ensures n <= |sentences|
  {
    if sentences == [] then 0
    else
      SupportCount(premise, sentences[..|sentences| - 1], nli)
      + (if Supported(premise, sentences[|sentences| - 1], nli) then 1 else 0)
  }

  /** The exception of the first sentence the model fails on. */
  function FirstFailure(premise: string, sentences: seq<string>, nli: string -> Nli): Option<string> {
    if sentences == [] then None
    else match nli(Prompt(premise, sentences[0]))
      case Fails(message) => Some(message)
      case Labelled(_, _) => FirstFailure(premise, sentences[1..], nli)
  }

  function Fraction(supported: nat, total: nat): real
    requires 0 < total
  {
    Round4(supported as real / total as real)
  }

  /** The score a text gets against a context, or the exception that ended its evaluation. */
  datatype Verdict = Verdict(score: real, error: Option<string>)

  function Judge(text: string, context: seq<string>, nli: string -> Nli): Verdict {
    var sentences := SplitSentences(text);
    var failure := FirstFailure(Premise(context), sentences, nli);
    if context == [] || sentences == [] then Verdict(0.0, None)
    else if failure.Some? then Verdict(0.0, failure)
    else Verdict(Fraction(SupportCount(Premise(context), sentences, nli), |sentences|), None)
  }

  /** An outcome reports a verdict: same score or same error, and passed exactly from one half. */
  predicate Reports<D>(o: Outcome<D>, v: Verdict) {
    match v.error
    case Some(message) => o == Error(message)
    case None => o.Judged? && o.score == v.score && (o.passed <==> 0.5 <= v.score)
  }

  lemma CountNext(premise: string, sentences: seq<string>, nli: string -> Nli, i: nat)
    requires i < |sentences|
    ensures SupportCount(premise, sentences[..i + 1], nli)
         == SupportCount(premise, sentences[..i], nli) + (if Supported(premise, sentences[i], nli) then 1 else 0)
  {
    assert sentences[..i + 1][..i] == sentences[..i];
  }

  lemma {:induction false} FailureAt(premise: string, sentences: seq<string>, nli: string -> Nli, i: nat)
    requires i < |sentences|
    requires forall k :: 0 <= k < i ==> nli(Prompt(premise, sentences[k])).Labelled?
    requires nli(Prompt(premise, sentences[i])).Fails?
    ensures FirstFailure(premise, sentences, nli) == Some(nli(Prompt(premise, sentences[i])).message)
  {
    if 0 < i {
      FailureAt(premise, sentences[1..], nli, i - 1);
    }
  }

  lemma {:induction false} NoFailure(premise: string, sentences: seq<string>, nli: string -> Nli)
    requires forall k :: 0 <= k < |sentences| ==> nli(Prompt(premise, sentences[k])).Labelled?
    ensures FirstFailure(premise, sentences, nli) == None
  {
    if sentences != [] {
      NoFailure(premise, sentences[1..], nli);
    }
  }

  // ---- Hallucination ----

  /** The flag of an unsupported sentence. */
  function FlagOf(sentence: string, tag: string): Flag {
    Flag(sentence, if Contradicts(tag) then "CONTRADICTION" else "UNSUPPORTED")
  }

  /** The flags of the sentences that are not supported, in order. */
  function FlagsOf(details: seq<Detail>): (flags: seq<Flag>)
    ensures |flags| <= |details|
  {
    if details == [] then []
    else
      var last := details[|details| - 1];
      FlagsOf(details[..|details| - 1]) + (if Entails(last.tag) then [] else [FlagOf(last.sentence, last.tag)])
  }

  /** The details are those of the first sentences, in order. */
  ghost predicate Describes(details: seq<Detail>, premise: string, sentences: seq<string>, nli: string -> Nli) {
    |details| <= |sentences| &&
    forall k :: 0 <= k < |details| ==>
      details[k].sentence == sentences[k]
      && nli(premise + " </s></s> " + sentences[k]) == Labelled(details[k].tag, details[k].score)
  }

  /** A sentence without support. */
  method AddFlag(flags: seq<Flag>, sentence: string, tag: string) returns (more: seq<Flag>)
    ensures more == flags + [FlagOf(sentence, tag)]
  {
    if tag == "CONTRADICTION" || tag == "LABEL_0" {
      more := flags + [Flag(sentence, "CONTRADICTION")];
    } else {
      more := flags + [Flag(sentence, "UNSUPPORTED")];
    }
  }

  /** The branches of the report's loop. */
  method Tally(supported: nat, flags: seq<Flag>, sentence: string, tag: string)
    returns (supported': nat, flags': seq<Flag>)
    ensures supported' == supported + (if Entails(tag) then 1 else 0)
    ensures flags' == flags + (if Entails(tag) then [] else [FlagOf(sentence, tag)])
  {
    supported', flags' := supported, flags;
    if tag == "ENTAILMENT" || tag == "LABEL_2" {
      supported' := supported + 1;
    } else {
      flags' := AddFlag(flags, sentence, tag);
    }
  }

  /** The loop of the report: the model's answer on every sentence, or its first exception. */
  method InspectSentences(premise: string, sentences: seq<string>, nli: string -> Nli)
    returns (failure: Option<string>, supported: nat, flags: seq<Flag>, details: seq<Detail>)
    ensures failure == FirstFailure(premise, sentences, nli)
    ensures failure.None? ==>
              && |details| == |sentences| && Describes(details, premise, sentences, nli)
              && flags == FlagsOf(details)
              && supported == SupportCount(premise, sentences, nli)
              && supported + |flags| == |sentences|
  {
    supported, flags, details := 0, [], [];
    for i := 0 to |sentences|
      invariant |details| == i && Describes(details, premise, sentences, nli)
      invariant forall k :: 0 <= k < i ==> nli(Prompt(premise, sentences[k])).Labelled?
      invariant flags == FlagsOf(details)
      invariant supported == SupportCount(premise, sentences[..i], nli)
      invariant supported + |flags| == i
    {
      CountNext(premise, sentences, nli, i);
      var out := nli(Prompt(premise, sentences[i]));
      if out.Fails? {
        FailureAt(premise, sentences, nli, i);
        return Some(out.message), supported, flags, details;
      }
      supported, flags := Tally(supported, flags, sentences[i], out.tag);
      var detail := Detail(sentences[i], out.tag, out.score);
      FlagsNext(details, detail);
      DescribesNext(details, detail, premise, sentences, nli);
      details := details + [detail];
    }
    assert sentences[..|sentences|] == sentences;
    NoFailure(premise, sentences, nli);
    failure := None;
  }

  lemma DescribesNext(details: seq<Detail>, next: Detail, premise: string, sentences: seq<string>, nli: string -> Nli)
    requires |details| < |sentences| && Describes(details, premise, sentences, nli)
    requires next.sentence == sentences[|details|]
    requires nli(Prompt(premise, next.sentence)) == Labelled(next.tag, next.score)
    ensures Describes(details + [next], premise, sentences, nli)
  {
  }

  lemma FlagsNext(details: seq<Detail>, next: Detail)
    ensures FlagsOf(details + [next])
         == FlagsOf(details) + (if Entails(next.tag) then [] else [FlagOf(next.sentence, next.tag)])
  {
    assert (details + [next])[..|details|] == details;
  }

  /** The model's label is neither of the two that mean support. */
  predicate Unsupported(d: Detail) {
    d.tag != "ENTAILMENT" && d.tag != "LABEL_2"
  }

  ghost function UnsupportedAt(details: seq<Detail>): set<nat> {
    set k: nat | k < |details| && Unsupported(details[k])
  }

  lemma UnsupportedNext(details: seq<Detail>, n: nat)
    requires |details| == n + 1
    ensures |UnsupportedAt(details)| == |UnsupportedAt(details[..n])| + (if Unsupported(details[n]) then 1 else 0)
  {
    assert UnsupportedAt(details) == UnsupportedAt(details[..n]) + (if Unsupported(details[n]) then {n} else {});
  }

  /** One flag for each unsupported sentence. */
  lemma {:induction false} FlagsCount(details: seq<Detail>)
    ensures |FlagsOf(details)| == |UnsupportedAt(details)|
  {
    if details != [] {
      var n := |details| - 1;
      FlagsCount(details[..n]);
      UnsupportedNext(details, n);
      assert Unsupported(details[n]) <==> !Entails(details[n].tag);
    }
  }

  /** It says whether the model found a contradiction. */
  lemma {:induction false} FlagIsThere(details: seq<Detail>, k: nat)
    requires k < |details| && Unsupported(details[k])
    ensures var tag := details[k].tag;
      Flag(details[k].sentence,
           if tag == "CONTRADICTION" || tag == "LABEL_0" then "CONTRADICTION" else "UNSUPPORTED") in FlagsOf(details)
  {
    var n := |details| - 1;
    if k < n {
      FlagIsThere(details[..n], k);
    }
  }

  /** A report on these sentences: the model's answer on each, a flag for each one without support, and the rounded
      fraction of the others. */
  ghost predicate Summarizes(report: Report, premise: string, sentences: seq<string>, nli: string -> Nli) {
    var total := |sentences|;
    && |report.details| == total && Describes(report.details, premise, sentences, nli)
    && report.flags == FlagsOf(report.details) && |report.flags| == |UnsupportedAt(report.details)|
    && SupportCount(premise, sentences, nli) + |report.flags| == total
    && report.fractionSupported == (if total == 0 then 0.0 else Fraction(total - |report.flags|, total))
  }

  /** The report, or the exception the model raised. */
  method HallucinationReport(answer: string, context: seq<string>, nli: string -> Nli)
    returns (failure: Option<string>, report: Report)
    ensures failure == FirstFailure(Premise(context), SplitSentences(answer), nli)
    ensures failure.None? ==> Summarizes(report, Premise(context), SplitSentences(answer), nli)
    ensures failure.None? && SplitSentences(answer) != [] ==>
              report.fractionSupported
                == Fraction(SupportCount(Premise(context), SplitSentences(answer), nli), |SplitSentences(answer)|)
  {
    var premise := Premise(context);
    var sentences := SplitSentences(answer);
    report := Report(0.0, [], []);
    if sentences == [] {
      return None, report;
    }
    var supported, flags, details;
    failure, supported, flags, details := InspectSentences(premise, sentences, nli);
    if failure.None? {
      FlagsCount(details);
      report := Report(Fraction(supported, |sentences|), flags, details);
    }
  }

  method EvaluateHallucination(sample: Sample, nli: string -> Nli) returns (o: Outcome<Report>)
    ensures Reports(o, Judge(sample.answer, sample.context, nli))
    ensures o.Judged? && sample.answer != "" && sample.context != [] ==>
              Summarizes(o.details, Premise(sample.context), SplitSentences(sample.answer), nli)
  {
    EmptyText();
    if sample.answer == "" || sample.context == [] {
      return Judged(0.0, false, Report(0.0, [], []));
    }
    var failure, report := HallucinationReport(sample.answer, sample.context, nli);
    match failure {
      case Some(message) => o := Error(message);
      case None => o := Judged(report.fractionSupported, 0.5 <= report.fractionSupported, report);
    }
  }

  // ---- Faithfulness ----

  /** The claim is the sentence with the model's label and rounded score, supported exactly under two labels. */
  ghost predicate ClaimOk(claim: Claim, premise: string, sentence: string, nli: string -> Nli) {
    var out := nli(premise + " </s></s> " + sentence);
    && out.Labelled?
    && claim == Claim(sentence, out.tag in {"ENTAILMENT", "LABEL_2"}, out.tag, Round4(out.score))
  }

  ghost predicate ClaimsOk(claims: seq<Claim>, premise: string, sentences: seq<string>, nli: string -> Nli) {
    |claims| <= |sentences| && forall k :: 0 <= k < |claims| ==> ClaimOk(claims[k], premise, sentences[k], nli)
  }

  /** The loop over the claims: the model's answer on every one, or its first exception. */
  method CheckClaims(premise: string, sentences: seq<string>, nli: string -> Nli)
    returns (failure: Option<string>, supportedCount: nat, claims: seq<Claim>)
    ensures failure == FirstFailure(premise, sentences, nli)
    ensures failure.None? ==>
              && |claims| == |sentences| && ClaimsOk(claims, premise, sentences, nli)
              && supportedCount == SupportCount(premise, sentences, nli)
  {
    claims, supportedCount := [], 0;
    for i := 0 to |sentences|
      invariant |claims| == i && ClaimsOk(claims, premise, sentences, nli)
      invariant supportedCount == SupportCount(premise, sentences[..i], nli)
      invariant forall k :: 0 <= k < i ==> nli(Prompt(premise, sentences[k])).Labelled?
    {
      CountNext(premise, sentences, nli, i);
      var out := nli(Prompt(premise, sentences[i]));
      if out.Fails? {
        FailureAt(premise, sentences, nli, i);
        return Some(out.message), supportedCount, claims;
      }
      var isSupported := Entails(out.tag);
      if isSupported {
        supportedCount := supportedCount + 1;
      }
      claims := claims + [Claim(sentences[i], isSupported, out.tag, Round4(out.score))];
    }
    assert sentences[..|sentences|] == sentences;
    NoFailure(premise, sentences, nli);
    failure := None;
  }

  /** The positions of the claims that are marked supported. */
  ghost function Marked(claims: seq<Claim>): set<nat> {
    set k: nat | k < |claims| && claims[k].supported
  }

  lemma {:induction false} CountIsMarked(claims: seq<Claim>, premise: string, sentences: seq<string>,
                                         nli: string -> Nli)
    requires |claims| == |sentences| && ClaimsOk(claims, premise, sentences, nli)
    ensures SupportCount(premise, sentences, nli) == |Marked(claims)|
  {
    if claims != [] {
      var n := |claims| - 1;
      CountIsMarked(claims[..n], premise, sentences[..n], nli);
      assert ClaimOk(claims[n], premise, sentences[n], nli);
      assert Marked(claims) == Marked(claims[..n]) + (if claims[n].supported then {n} else {});
    }
  }

  /** The claims of a text against a context, and the score that is the rounded share of the supported ones. */
  ghost predicate ScoresClaims(o: Outcome<Claims>, text: string, context: seq<string>, nli: string -> Nli)
    requires o.Judged?
  {
    var total := |SplitSentences(text)|;
    && |o.details.claims| == o.details.total == total && o.details.supported == |Marked(o.details.claims)|
    && ClaimsOk(o.details.claims, Premise(context), SplitSentences(text), nli)
    && o.score == (if total == 0 then 0.0 else Fraction(|Marked(o.details.claims)|, total))
  }

  method EvaluateFaithfulness(sample: Sample, nli: string -> Nli) returns (o: Outcome<Claims>)
    ensures Reports(o, Judge(sample.answer, sample.context, nli))
    ensures o.Judged? && sample.answer != "" && sample.context != [] ==>
              ScoresClaims(o, sample.answer, sample.context, nli)
  {
    EmptyText();
    if sample.answer == "" || sample.context == [] {
      return Judged(0.0, false, Claims(0, 0, []));
    }
    var premise := Premise(sample.context);
    var sentences := SplitSentences(sample.answer);
    if sentences == [] {
      return Judged(0.0, false, Claims(0, 0, []));
    }
    var failure, supportedCount, claims := CheckClaims(premise, sentences, nli);
    if failure.Some? {
      return Error(failure.value);
    }
    CountIsMarked(claims, premise, sentences, nli);
    var score := Fraction(supportedCount, |sentences|);
    o := Judged(score, 0.5 <= score, Claims(|sentences|, supportedCount, claims));
  }

  // ---- Context recall ----

  /** The reference answer is checked when there is one, otherwise the answer. */
  function TextToCheck(sample: Sample): string {
    if sample.referenceAnswer != "" then sample.referenceAnswer else sample.answer
  }

  /** This evaluator's own loop over the claims. */
  method RecallClaims(contextText: string, sentences: seq<string>, nli: string -> Nli)
    returns (failure: Option<string>, recalledCount: nat, claims: seq<Claim>)
    ensures failure == FirstFailure(contextText, sentences, nli)
    ensures failure.None? ==>
              && |claims| == |sentences| && ClaimsOk(claims, contextText, sentences, nli)
              && recalledCount == SupportCount(contextText, sentences, nli)
  {
    recalledCount, claims := 0, [];
    for i := 0 to |sentences|
      invariant |claims| == i && ClaimsOk(claims, contextText, sentences, nli)
      invariant recalledCount == SupportCount(contextText, sentences[..i], nli)
      invariant forall k :: 0 <= k < i ==> nli(Prompt(contextText, sentences[k])).Labelled?
    {
      CountNext(contextText, sentences, nli, i);
      var out := nli(Prompt(contextText, sentences[i]));
      if out.Fails? {
        FailureAt(contextText, sentences, nli, i);
        return Some(out.message), recalledCount, claims;
      }
      var isRecalled := Entails(out.tag);
      if isRecalled {
        recalledCount := recalledCount + 1;
      }
      claims := claims + [Claim(sentences[i], isRecalled, out.tag, Round4(out.score))];
    }
    assert sentences[..|sentences|] == sentences;
    NoFailure(contextText, sentences, nli);
    failure := None;
  }

  method EvaluateContextRecall(sample: Sample, nli: string -> Nli) returns (o: Outcome<Claims>)
    ensures var text := if sample.referenceAnswer == "" then sample.answer else sample.referenceAnswer;
      && Reports(o, Judge(text, sample.context, nli))
      && (o.Judged? && text != "" && sample.context != [] ==> ScoresClaims(o, text, sample.context, nli))
  {
    EmptyText();
    if sample.context == [] {
      return Judged(0.0, false, Claims(0, 0, []));
    }
    var text := TextToCheck(sample);
    if text == "" {
      return Judged(0.0, false, Claims(0, 0, []));
    }
    var contextText := Premise(sample.context);
    var sentences := SplitSentences(text);
    if sentences == [] {
      return Judged(0.0, false, Claims(0, 0, []));
    }
    var failure, recalledCount, claims := RecallClaims(contextText, sentences, nli);
    if failure.Some? {
      return Error(failure.value);
    }
    CountIsMarked(claims, contextText, sentences, nli);
    var score := Fraction(recalledCount, |sentences|);
    o := Judged(score, 0.5 <= score, Claims(|sentences|, recalledCount, claims));
  }

  // ---- Agreement ----

  /** For every sample and shared oracle the faithfulness and hallucination evaluators report the same score, pass flag
      and error; context recall too when there is no reference answer, or when it equals the answer. */
  method EvaluateAll(sample: Sample, nli: string -> Nli)
    returns (h: Outcome<Report>, f: Outcome<Claims>, r: Outcome<Claims>)
    ensures h.Score() == f.Score() && h.Passed() == f.Passed() && (h.Error? <==> f.Error?)
    ensures h.Error? ==> h.message == f.message
    ensures sample.referenceAnswer == "" || sample.referenceAnswer == sample.answer ==>
              r.Score() == f.Score() && r.Passed() == f.Passed() && (r.Error? <==> f.Error?)
              && (r.Error? ==> r.message == f.message)
  {
    h := EvaluateHallucination(sample, nli);
    f := EvaluateFaithfulness(sample, nli);
    r := EvaluateContextRecall(sample, nli);
  }

  /** Rounding decides the threshold: `supported` of `total` sentences pass exactly when 20000 * supported is at least
      9999 * total, which for fewer than 10000 sentences means at least half of them; the score is always a fraction,
      and 1 exactly when (for fewer than 20000 sentences) all are supported. */
  lemma PassIff(supported: nat, total: nat)
    requires 0 < total && supported <= total
    ensures 0.5 <= Fraction(supported, total) <==> 9999 * total <= 20000 * supported
    ensures total < 10000 ==> (0.5 <= Fraction(supported, total) <==> total <= 2 * supported)
    ensures Fraction(supported, total) == 1.0 <==> 19999 * total <= 20000 * supported
    ensures total < 20000 ==> (Fraction(supported, total) == 1.0 <==> supported == total)
    ensures 0.0 <= Fraction(supported, total) <= 1.0
  {
    HalfIff(supported, total);
    OneIff(supported, total);
  }

  lemma HalfIff(supported: nat, total: nat)
    requires 0 < total
    ensures 0.0 <= Fraction(supported, total)
    ensures 0.5 <= Fraction(supported, total) <==> 9999 * total <= 20000 * supported
  {
    var q := supported as real / total as real;
    Compare(q, supported, total, 9999);
    Compare(q, supported, total, 0);
    RoundsToHalf(q);
  }

  lemma OneIff(supported: nat, total: nat)
    requires 0 < total && supported <= total
    ensures Fraction(supported, total) <= 1.0
    ensures Fraction(supported, total) == 1.0 <==> 19999 * total <= 20000 * supported
  {
    var q := supported as real / total as real;
    Compare(q, supported, total, 19999);
    Compare(q, supported, total, 20000);
    RoundsToOne(q);
  }

  lemma RoundsToHalf(q: real)
    ensures 0.5 <= Round4(q) <==> 9999.0 / 20000.0 <= q
    ensures 0.0 <= q ==> 0.0 <= Round4(q)
  {
    HalfEvenIsNearest(q * 10000.0, HalfEven(q * 10000.0));
  }

  lemma RoundsToOne(q: real)
    requires q <= 1.0
    ensures Round4(q) <= 1.0
    ensures Round4(q) == 1.0 <==> 19999.0 / 20000.0 <= q
  {
    HalfEvenIsNearest(q * 10000.0, HalfEven(q * 10000.0));
  }

  /** Comparing the fraction `q` of `supported` in `total` with k / 20000. */
  lemma Compare(q: real, supported: nat, total: nat, k: nat)
    requires 0 < total && q * total as real == supported as real
    ensures k as real / 20000.0 <= q <==> k * total <= 20000 * supported
    ensures q <= k as real / 20000.0 <==> 20000 * supported <= k * total
  {
    var bar := k as real / 20000.0;
    assert bar * total as real == (k * total) as real / 20000.0;
    assert bar <= q ==> 0.0 <= (q - bar) * total as real;
    assert q < bar ==> 0.0 < (bar - q) * total as real;
    assert bar < q ==> 0.0 < (q - bar) * total as real;
  }
}
