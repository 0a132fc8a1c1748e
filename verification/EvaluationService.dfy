/**
 `run_evaluation` as one thread executes it: find or create the semaphore, take a slot, evaluate, give the slot back
 whether or not the evaluation raised, then store the run. Every step is a step of the interleaving model.
 */
module EvaluationService {
  import opened Options
  import opened EvaluationSlots
  import Composite
  import Profiles

  /** What the pipeline that always runs yields; a key it leaves out is `None`. */
  datatype Legacy =
    | Measured(relevance: Option<real>, hallucination: Option<real>, latencyMs: Option<real>, cost: Option<real>)
    | Fails(message: string)

  datatype StoredRun = StoredRun(profile: string, legacy: Legacy, metrics: seq<Composite.MetricResult>,
                                 composite: Option<real>)

  datatype Outcome = Stored(run: StoredRun) | Busy | Raised(message: string)

  function ProfileNamed(name: string): Option<Profiles.Profile> {
    if name == "rag" then Some(Profiles.RAG)
    else if name == "rag_strict" then Some(Profiles.RAG_STRICT)
    else if name == "judge" then Some(Profiles.JUDGE)
    else None
  }

  /** No advanced evaluators run for these. */
  predicate Basic(name: string) {
    name == "" || name == "basic"
  }

  ghost predicate Leads(slots: nat, s: State, t: State) {
    exists acts :: CanRun(slots, s, acts) && Run(slots, s, acts) == t
  }

  lemma LeadsNowhere(slots: nat, s: State)
    ensures Leads(slots, s, s)
  {
    assert CanRun(slots, s, []) && Run(slots, s, []) == s;
  }

  lemma {:induction false} RunOneMore(slots: nat, s: State, acts: seq<Action>, a: Action)
    requires CanRun(slots, s, acts) && Enabled(Run(slots, s, acts), a)
    ensures CanRun(slots, s, acts + [a])
    ensures Run(slots, s, acts + [a]) == Next(slots, Run(slots, s, acts), a)
    decreases |acts|
  {
    if acts == [] {
      assert acts + [a] == [a] && [a][1..] == [];
    } else {
      RunOneMore(slots, Next(slots, s, acts[0]), acts[1..], a);
      assert (acts + [a])[1..] == acts[1..] + [a];
    }
  }

  lemma LeadsOn(slots: nat, s: State, t: State, a: Action)
    requires Leads(slots, s, t) && Enabled(t, a)
    ensures Leads(slots, s, Next(slots, t, a))
  {
    var acts :| CanRun(slots, s, acts) && Run(slots, s, acts) == t;
    RunOneMore(slots, s, acts, a);
  }

  lemma LeadsKeeps(slots: nat, s: State, t: State)
    requires 1 <= slots && Inv(slots, s) && Leads(slots, s, t)
    ensures Inv(slots, t)
  {
    var acts :| CanRun(slots, s, acts) && Run(slots, s, acts) == t;
    RunKeeps(slots, s, acts);
  }

  /** The slots that can be taken. */
  function FreeIn(slots: nat, s: State): nat {
    if s.sems == [] then slots else s.sems[0]
  }

  /** `s` with a thread more, when the one semaphore has `free` permits. */
  function With(s: State, free: nat, th: Thread): State {
    State(Some(0), None, [free], s.threads + [th])
  }

  lemma Idle(slots: nat, s: State)
    requires Inv(slots, s) && s.lock.None?
    ensures (s.global == None && s.sems == []) || (s.global == Some(0) && s.sems == [FreeIn(slots, s)])
  {
    forall k: nat | k < |s.threads| ensures !s.threads[k].phase.Publishing? {
      assert ThreadOk(s, k);
    }
  }

  /** The locked part of the double-checked initialiser, by a thread alone. */
  lemma Creates(slots: nat, start: State, s: State, tid: nat)
    requires s.global == None && s.lock == None && s.sems == [] && tid < |s.threads|
    requires s.threads[tid].phase.AwaitLock? && Leads(slots, start, s)
    ensures Leads(slots, start, Goto(s.(global := Some(0), sems := [slots]), tid, Returning))
  {
    var s1 := Goto(s.(lock := Some(tid)), tid, SecondCheck);
    LeadsOn(slots, start, s, Step(tid));
    var s2 := Goto(s1, tid, Constructing);
    LeadsOn(slots, start, s1, Step(tid));
    var s3 := Goto(s2.(sems := [slots]), tid, Publishing(0));
    LeadsOn(slots, start, s2, Step(tid));
    var s4 := Goto(s3.(global := Some(0)), tid, Unlocking);
    LeadsOn(slots, start, s3, Step(tid));
    var s5 := Goto(s4.(lock := None), tid, Returning);
    LeadsOn(slots, start, s4, Step(tid));
    assert s5 == Goto(s.(global := Some(0), sems := [slots]), tid, Returning);
  }

  /** A new thread gets the semaphore. */
  lemma Obtains(slots: nat, s: State)
    requires Inv(slots, s) && s.lock.None?
    ensures Leads(slots, s, With(s, FreeIn(slots, s), Thread(Acquiring(0), 0, 0)))
  {
    Idle(slots, s);
    var tid, free := |s.threads|, FreeIn(slots, s);
    LeadsNowhere(slots, s);
    LeadsOn(slots, s, s, Spawn);
    var s1 := s.(threads := s.threads + [Thread(FirstCheck, 0, 0)]);
    LeadsOn(slots, s, s1, Step(tid));
    if s.global == None {
      Creates(slots, s, Goto(s1, tid, AwaitLock), tid);
    }
    var s2 := With(s, free, Thread(Returning, 0, 0));
    assert s2 == Goto(s1.(global := Some(0), sems := [free]), tid, Returning);
    LeadsOn(slots, s, s2, Step(tid));
    assert Next(slots, s2, Step(tid)) == With(s, free, Thread(Acquiring(0), 0, 0));
  }

  /** A thread that finds no permit for the whole timeout is refused. */
  lemma Refuses(slots: nat, s: State)
    requires Inv(slots, s) && s.lock.None? && FreeIn(slots, s) == 0
    ensures Leads(slots, s, With(s, 0, Thread(Refused, 0, 0)))
  {
    Obtains(slots, s);
    var waiting := With(s, 0, Thread(Acquiring(0), 0, 0));
    LeadsOn(slots, s, waiting, TimeOut(|s.threads|));
    assert Next(slots, waiting, TimeOut(|s.threads|)) == With(s, 0, Thread(Refused, 0, 0));
  }

  /** From waiting at the semaphore to being about to release. */
  lemma TakesSlot(slots: nat, start: State, s: State, free: nat, raised: bool)
    requires 1 <= free <= slots && Leads(slots, start, With(s, free, Thread(Acquiring(0), 0, 0)))
    ensures Leads(slots, start, With(s, free - 1, Thread(Releasing(0, raised), 1, 0)))
  {
    var tid := |s.threads|;
    var s1 := With(s, free, Thread(Acquiring(0), 0, 0));
    LeadsOn(slots, start, s1, Step(tid));
    var s2 := With(s, free - 1, Thread(Inside(0), 1, 0));
    assert Next(slots, s1, Step(tid)) == s2;
    var leave := if raised then BodyRaises(tid) else Step(tid);
    LeadsOn(slots, start, s2, leave);
    assert Next(slots, s2, leave) == With(s, free - 1, Thread(Releasing(0, raised), 1, 0));
  }

  /** And to having released. */
  lemma UsesSlot(slots: nat, start: State, s: State, free: nat, raised: bool)
    requires 1 <= free <= slots && Leads(slots, start, With(s, free, Thread(Acquiring(0), 0, 0)))
    ensures Leads(slots, start, With(s, free, Thread(Finished(raised), 1, 1)))
  {
    TakesSlot(slots, start, s, free, raised);
    var tid := |s.threads|;
    var s3 := With(s, free - 1, Thread(Releasing(0, raised), 1, 0));
    LeadsOn(slots, start, s3, Step(tid));
    assert Next(slots, s3, Step(tid)) == With(s, free, Thread(Finished(raised), 1, 1));
  }

  /** A thread that gets a permit gives it back, also when its evaluation raises. */
  lemma Completes(slots: nat, s: State, raised: bool)
    requires 1 <= slots && Inv(slots, s) && s.lock.None? && 0 < FreeIn(slots, s)
    ensures FreeIn(slots, s) <= slots
    ensures Leads(slots, s, With(s, FreeIn(slots, s), Thread(Finished(raised), 1, 1)))
  {
    Obtains(slots, s);
    UsesSlot(slots, s, s, FreeIn(slots, s), raised);
  }

  class Service {
    const maxConcurrency: int
    var semaphore: Option<nat>
    var locked: bool
    /** The free permits of every semaphore made. */
    var permits: seq<nat>
    var runs: seq<StoredRun>
    /** Every thread that ever called, as the interleaving model sees it. */
    ghost var threads: seq<Thread>

    constructor (maxConcurrency: int)
      ensures Valid() && Process() == INIT && runs == [] && this.maxConcurrency == maxConcurrency
    {
      this.maxConcurrency := maxConcurrency;
      semaphore, locked, permits, runs, threads := None, false, [], [], [];
    }

    function Limit(): nat {
      Slots(maxConcurrency)
    }

    /** The process between calls. */
    ghost function Process(): State
      reads this
    {
      State(semaphore, None, permits, threads)
    }

    ghost predicate Valid()
      reads this
    {
      !locked && Inv(Limit(), Process())
    }

    function Free(): nat
      reads this
    {
      if permits == [] then Limit() else permits[0]
    }

    method GetEvalSemaphore() returns (sem: nat)
      requires !locked
      requires (semaphore == None && permits == []) || (semaphore == Some(0) && |permits| == 1)
      modifies this`semaphore, this`locked, this`permits
      ensures !locked && sem == 0 && semaphore == Some(sem) && permits == [old(Free())]
    {
      if semaphore.None? {
        locked := true;
        if semaphore.None? {
          permits := permits + [if 1 < maxConcurrency then maxConcurrency else 1];
          semaphore := Some(|permits| - 1);
        }
        locked := false;
      }
      sem := semaphore.value;
    }

    /** A bounded semaphore raises when every permit is already back. */
    method Release(sem: nat)
      requires sem < |permits| && permits[sem] < Limit()
      modifies this`permits
      ensures permits == old(permits)[sem := old(permits)[sem] + 1]
    {
      permits := permits[sem := permits[sem] + 1];
    }

    /** A call with no other thread moving meanwhile: it is refused exactly when no slot is free; whether the evaluation
        returns or raises, the slots free afterwards are those free before; only an evaluation that returned is stored,
        after its slot is back; and what it did to the process is a run of the interleaving model. */
    method RunEvaluation(legacy: Legacy, profile: string, advanced: Option<string>, oracle: string -> Profiles.Verdict)
      returns (outcome: Outcome)
      requires Valid()
      modifies this
      ensures Valid() && Leads(Limit(), old(Process()), Process())
      ensures semaphore.Some? && Free() == old(Free())
      ensures outcome.Busy? <==> old(Free()) == 0
      ensures 0 < old(Free()) ==>
                && (legacy.Fails? ==> outcome == Raised(legacy.message))
                && (legacy.Measured? && (profile == "" || profile == "basic" || advanced.None?) ==> outcome.Stored?)
                && (legacy.Measured? && profile != "" && profile != "basic" && advanced.Some? ==>
                      outcome == Raised(advanced.value))
      ensures threads == old(threads) +
                [if outcome.Busy? then Thread(Refused, 0, 0) else Thread(Finished(outcome.Raised?), 1, 1)]
      ensures runs == old(runs) + (if outcome.Stored? then [outcome.run] else [])
      ensures outcome.Stored? ==>
                && outcome.run.profile == profile && outcome.run.legacy == legacy
                && Evaluated(profile, oracle, outcome.run.metrics, outcome.run.composite)
    {
      ghost var start := Process();
      Idle(Limit(), start);
      var sem := GetEvalSemaphore();
      if permits[sem] == 0 {
        Refuses(Limit(), start);
        threads := threads + [Thread(Refused, 0, 0)];
        LeadsKeeps(Limit(), start, Process());
        return Busy;
      }
      permits := permits[sem := permits[sem] - 1];
      outcome := Evaluate(legacy, profile, advanced, oracle);
      Release(sem);
      Completes(Limit(), start, outcome.Raised?);
      threads := threads + [Thread(Finished(outcome.Raised?), 1, 1)];
      LeadsKeeps(Limit(), start, Process());
      if outcome.Stored? {
        runs := runs + [outcome.run];
      }
    }
  }

  const RAG_METRICS := ["relevance", "hallucination", "latency", "cost", "faithfulness", "context_precision",
                        "context_recall", "answer_relevancy"]

  /** The rows carry these names, in this order. */
  ghost predicate Named(metrics: seq<Composite.MetricResult>, names: seq<string>) {
    |metrics| == |names| && forall k :: 0 <= k < |names| ==> metrics[k].metric == names[k]
  }

  ghost predicate ErrorFree(metrics: seq<Composite.MetricResult>) {
    forall k :: 0 <= k < |metrics| ==> metrics[k].error == None || metrics[k].error == Some("")
  }

  /** The three weighted profiles by name: their rows, and in a run without errors the composite in terms of their
      scores. The weight of the one metric that no row carries divides the others' weighted sum. */
  ghost predicate InFull(profile: string, m: seq<Composite.MetricResult>, composite: Option<real>) {
    && (profile == "rag" ==>
          && Named(m, RAG_METRICS)
          && (ErrorFree(m) ==> composite == Some(Profiles.Capped(
                0.15 * m[0].score + 0.25 * m[4].score + 0.15 * (m[5].score + m[6].score + m[7].score), 0.15))))
    && (profile == "rag_strict" ==>
          && Named(m, RAG_METRICS + ["citation_correctness"])
          && (ErrorFree(m) ==> composite == Some(Profiles.Capped(
                0.10 * m[0].score + 0.20 * m[4].score
                + 0.15 * (m[5].score + m[6].score + m[7].score + m[8].score), 0.10))))
    && (profile == "judge" ==>
          && Named(m, RAG_METRICS + ["citation_correctness", "llm_judge"])
          && (ErrorFree(m) ==> composite == Some(Profiles.Capped(
                0.10 * m[0].score + 0.15 * m[4].score + 0.25 * m[9].score
                + 0.10 * (m[5].score + m[6].score + m[7].score + m[8].score), 0.10))))
  }

  lemma RagInFull(m: seq<Composite.MetricResult>)
    requires Named(m, Profiles.Emitted(Profiles.RAG)) && Composite.TotalWeight(Profiles.RAG.weights) != 0.0
    ensures InFull("rag", m, Some(Composite.CompositeScore(m, Profiles.RAG.weights)))
  {
    assert Profiles.Emitted(Profiles.RAG) == RAG_METRICS;
    if ErrorFree(m) {
      Profiles.ProfileComposite(Profiles.RAG, m);
      Profiles.RagSum(m);
    }
  }

  lemma RagStrictInFull(m: seq<Composite.MetricResult>)
    requires Named(m, Profiles.Emitted(Profiles.RAG_STRICT))
    requires Composite.TotalWeight(Profiles.RAG_STRICT.weights) != 0.0
    ensures InFull("rag_strict", m, Some(Composite.CompositeScore(m, Profiles.RAG_STRICT.weights)))
  {
    assert Profiles.Emitted(Profiles.RAG_STRICT) == RAG_METRICS + ["citation_correctness"];
    if ErrorFree(m) {
      Profiles.ProfileComposite(Profiles.RAG_STRICT, m);
      Profiles.RagStrictSum(m);
    }
  }

  lemma JudgeInFull(m: seq<Composite.MetricResult>)
    requires Named(m, Profiles.Emitted(Profiles.JUDGE)) && Composite.TotalWeight(Profiles.JUDGE.weights) != 0.0
    ensures InFull("judge", m, Some(Composite.CompositeScore(m, Profiles.JUDGE.weights)))
  {
    Profiles.JudgeEmits();
    assert Profiles.Emitted(Profiles.JUDGE) == RAG_METRICS + ["citation_correctness", "llm_judge"];
    if ErrorFree(m) {
      Profiles.ProfileComposite(Profiles.JUDGE, m);
      Profiles.JudgeSum(m);
    }
  }

  /** The rows and the composite a profile gives: nothing for the basic ones, one error row for an unknown one,
      otherwise one row per evaluator and their weighted composite. */
  ghost predicate Evaluated(profile: string, oracle: string -> Profiles.Verdict, metrics: seq<Composite.MetricResult>,
                            composite: Option<real>)
  {
    if profile == "" || profile == "basic" then metrics == [] && composite == None
    else match ProfileNamed(profile)
      case None =>
        composite == None && |metrics| == 1 && metrics[0].metric == "error" && Composite.Errored(metrics[0])
      case Some(p) =>
        && |metrics| == |Profiles.Emitted(p)|
        && (forall k :: 0 <= k < |metrics| ==> Profiles.Tells(metrics[k], Profiles.Emitted(p)[k], oracle))
        && composite.Some?
        && Composite.TotalWeight(p.weights) != 0.0
        && composite.value == Composite.CompositeScore(metrics, p.weights)
  }

  lemma EvaluatedInFull(profile: string, oracle: string -> Profiles.Verdict, metrics: seq<Composite.MetricResult>,
                        composite: Option<real>)
    requires Evaluated(profile, oracle, metrics, composite)
    ensures InFull(profile, metrics, composite)
  {
    if profile == "rag" {
      RagInFull(metrics);
    } else if profile == "rag_strict" {
      RagStrictInFull(metrics);
    } else if profile == "judge" {
      JudgeInFull(metrics);
    }
  }

  /** What runs while the slot is held: the pipeline, and unless the profile is basic its evaluators; setting these up
      or running them may raise `advanced`. */
  method Evaluate(legacy: Legacy, profile: string, advanced: Option<string>, oracle: string -> Profiles.Verdict)
    returns (outcome: Outcome)
    ensures legacy.Fails? ==> outcome == Raised(legacy.message)
    ensures legacy.Measured? && (profile == "" || profile == "basic" || advanced.None?) ==> outcome.Stored?
    ensures legacy.Measured? && profile != "" && profile != "basic" && advanced.Some? ==>
              outcome == Raised(advanced.value)
    ensures outcome.Stored? ==>
              && outcome.run.profile == profile && outcome.run.legacy == legacy
              && Evaluated(profile, oracle, outcome.run.metrics, outcome.run.composite)
  {
    if legacy.Fails? {
      return Raised(legacy.message);
    }
    if !Basic(profile) && advanced.Some? {
      return Raised(advanced.value);
    }
    var metrics, composite := EvaluateProfile(profile, oracle);
    outcome := Stored(StoredRun(profile, legacy, metrics, composite));
  }

  method EvaluateProfile(profile: string, oracle: string -> Profiles.Verdict)
    returns (metrics: seq<Composite.MetricResult>, composite: Option<real>)
    ensures Evaluated(profile, oracle, metrics, composite) && InFull(profile, metrics, composite)
    ensures profile !in {"", "basic", "rag", "rag_strict", "judge"} ==> |metrics| == 1 && metrics[0].metric == "error"
  {
    if Basic(profile) {
      return [], None;
    }
    match ProfileNamed(profile) {
      case None =>
        metrics := [Composite.MetricResult("error", 0.0, "0.0.0", Some("profile '" + profile + "' not found"))];
        composite := None;
      case Some(p) =>
        var report;
        metrics, report := Profiles.ScoreProfile(p, oracle);
        composite := Some(report.score);
        EvaluatedInFull(profile, oracle, metrics, composite);
    }
  }
}
