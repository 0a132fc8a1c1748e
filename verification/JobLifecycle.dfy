/** How long a job can keep its workers busy. */
module JobLifecycle {
  import opened Options
  import opened Jobs
  import opened JobAccounting

  /** An upper bound on the steps a delivery still takes. */
  function Rank(c: Config, w: Worker): nat {
    var left := if w.i < c.items then 4 * (c.items - w.i) else 0;
    match w.phase
    case Loading => 8 + 4 * c.items
    case MarkingRow => 7 + 4 * c.items
    case MarkingRedis => 6 + 4 * c.items
    case LoadingItems => 5 + 4 * c.items
    case Checking => 4 + left
    case Evaluating => 3 + left
    case Committing => 2 + left
    case Reporting => 1 + left
    case FinishingRow => 4
    case FinishingRedis => 3
    case CancellingRow => 4
    case CancellingRedis => 3
    case FailingRow => 2
    case FailingRedis => 1
  }

  /** Actions a worker process takes (being delivered to, stepping, failing, dying). */
  predicate ByWorker(a: Action) {
    a.Deliver? || a.WorkerStep? || a.Evaluate? || a.Raise? || a.Crash?
  }

  /** The queue delivers a job once and again only after a re-raise, with the try counter one higher. */
  predicate QueueDelivers(s: State, a: Action) {
    a.Deliver? ==>
      || (s.ledger == [] && a.tries == 1)
      || (s.last.Some? && s.last.value.Reraised? && a.tries == s.last.value.tries + 1)
  }

  predicate CanRunQueued(c: Config, s: State, acts: seq<Action>)
    decreases |acts|
  {
    || acts == []
    || (Enabled(c, s, acts[0]) && QueueDelivers(s, acts[0]) && CanRunQueued(c, Next(c, s, acts[0]), acts[1..]))
  }

  lemma {:induction false} QueuedRunsAreRuns(c: Config, s: State, acts: seq<Action>)
    requires CanRunQueued(c, s, acts)
    ensures CanRun(c, s, acts)
    decreases |acts|
  {
    if acts != [] {
      QueuedRunsAreRuns(c, Next(c, s, acts[0]), acts[1..]);
    }
  }

  /** Without deliveries there is nothing to restrict. */
  lemma {:induction false} NoDeliveryIsQueued(c: Config, s: State, acts: seq<Action>)
    requires CanRun(c, s, acts) && forall i :: 0 <= i < |acts| ==> !acts[i].Deliver?
    ensures CanRunQueued(c, s, acts)
    decreases |acts|
  {
    if acts != [] {
      assert !acts[0].Deliver?;
      NoDeliveryIsQueued(c, Next(c, s, acts[0]), acts[1..]);
    }
  }

  lemma {:induction false} QueuedSplit(c: Config, s: State, first: seq<Action>, second: seq<Action>)
    requires CanRunQueued(c, s, first) && CanRun(c, s, first)
    requires CanRunQueued(c, Run(c, s, first), second) && CanRun(c, Run(c, s, first), second)
    ensures CanRunQueued(c, s, first + second) && CanRun(c, s, first + second)
    ensures Run(c, s, first + second) == Run(c, Run(c, s, first), second)
    decreases |first|
  {
    RunSplit(c, s, first, second);
    if first == [] {
      assert first + second == second;
    } else {
      assert (first + second)[1..] == first[1..] + second;
      QueuedSplit(c, Next(c, s, first[0]), first[1..], second);
    }
  }

  function MaxTries(c: Config): nat {
    if c.maxRetries < 1 then 1 else c.maxRetries
  }

  /** The worker actions one delivery takes at most. */
  function PerTry(c: Config): nat {
    9 + 4 * c.items
  }

  /** The most worker actions that can still follow. */
  function Potential(c: Config, s: State): int {
    var perTry := PerTry(c);
    match s.live
    case Some(w) => Rank(c, w) + (MaxTries(c) - w.tries) * perTry
    case None =>
      if s.ledger == [] then MaxTries(c) * perTry
      else if s.last.Some? && s.last.value.Reraised? then (MaxTries(c) - s.last.value.tries) * perTry
      else 0
  }

  predicate InItem(phase: Phase) {
    phase == Checking || phase == Evaluating || phase == Committing || phase == Reporting
  }

  /** Tries are counted from one, one per delivery, and never pass the limit. */
  ghost predicate QueueInv(c: Config, s: State) {
    && (s.live.Some? ==> 1 <= s.live.value.tries == |s.ledger| <= MaxTries(c))
    && (s.live.Some? && InItem(s.live.value.phase) ==> s.live.value.i < c.items)
    && (s.live.None? && s.last.Some? && s.last.value.Reraised? ==>
          1 <= s.last.value.tries == |s.ledger| < MaxTries(c))
    && |s.ledger| <= MaxTries(c)
    && (s.ledger == [] ==> s.live.None?)
    && s.evaluations <= (if s.live.Some? then (|s.ledger| - 1) * c.items + Evaluated(s.live.value)
                         else |s.ledger| * c.items)
    && (s.live.Some? ==> Evaluated(s.live.value) <= c.items)
  }

  /** Item evaluations a delivery has started. */
  function Evaluated(w: Worker): nat {
    |w.results|
  }

  lemma OneTryFewer(n: int, perTry: int)
    ensures n * perTry == (n - 1) * perTry + perTry
    ensures 0 <= n && 0 <= perTry ==> 0 <= n * perTry
  {
  }

  lemma DeliverUsesPotential(c: Config, s: State, tries: int)
    requires QueueInv(c, s) && Enabled(c, s, Deliver(tries)) && QueueDelivers(s, Deliver(tries))
    ensures var t := Next(c, s, Deliver(tries));
      QueueInv(c, t) && 0 <= Potential(c, t) && Potential(c, t) + 1 <= Potential(c, s)
  {
    var perTry := PerTry(c);
    OneTryFewer(MaxTries(c) - tries + 1, perTry);
    OneTryFewer(MaxTries(c) - tries, perTry);
    OneTryFewer(|s.ledger| + 1, c.items);
  }

  /** The step keeps the delivery going with a lower rank, or ends it. */
  ghost predicate LowersRank(c: Config, s: State, t: State)
    requires s.live.Some?
  {
    && 1 <= Rank(c, s.live.value)
    && |t.ledger| == |s.ledger|
    && (t.live.Some? ==>
          && 1 <= Rank(c, t.live.value) < Rank(c, s.live.value)
          && t.live.value.tries == s.live.value.tries
          && (InItem(t.live.value.phase) ==> t.live.value.i < c.items))
    && (t.live.None? ==>
          t.last.Some? && (t.last.value.Reraised? ==> t.last.value.tries == s.live.value.tries < c.maxRetries))
  }

  lemma ItemStepLowersRank(c: Config, s: State)
    requires s.live.Some? && LiveOk(c, s) && InItem(s.live.value.phase) && Enabled(c, s, WorkerStep)
    ensures LowersRank(c, s, Next(c, s, WorkerStep))
  {
  }

  predicate StartPhase(phase: Phase) {
    phase == Loading || phase == MarkingRow || phase == MarkingRedis || phase == LoadingItems
  }

  lemma StartLowersRank(c: Config, s: State)
    requires s.live.Some? && LiveOk(c, s) && StartPhase(s.live.value.phase) && Enabled(c, s, WorkerStep)
    ensures LowersRank(c, s, Next(c, s, WorkerStep))
  {
  }

  lemma EndLowersRank(c: Config, s: State)
    requires s.live.Some? && !StartPhase(s.live.value.phase) && !InItem(s.live.value.phase) && Enabled(c, s, WorkerStep)
    ensures LowersRank(c, s, Next(c, s, WorkerStep))
  {
  }

  lemma StepLowersRank(c: Config, s: State, a: Action)
    requires s.live.Some? && LiveOk(c, s) && Enabled(c, s, a)
    requires a.WorkerStep? || a.Evaluate? || a.Raise?
    ensures LowersRank(c, s, Next(c, s, a))
  {
    if a.WorkerStep? {
      if InItem(s.live.value.phase) {
        ItemStepLowersRank(c, s);
      } else if StartPhase(s.live.value.phase) {
        StartLowersRank(c, s);
      } else {
        EndLowersRank(c, s);
      }
    }
  }

  /** The evaluations outside the delivery at work stay the same. */
  ghost predicate CountsEvaluations(c: Config, s: State, t: State)
    requires s.live.Some?
  {
    && (t.live.Some? ==>
          && Evaluated(t.live.value) <= c.items
          && t.evaluations - Evaluated(t.live.value) == s.evaluations - Evaluated(s.live.value))
    && (t.live.None? ==> t.evaluations == s.evaluations)
  }

  lemma WorkerStepCounts(c: Config, s: State)
    requires s.live.Some? && Enabled(c, s, WorkerStep) && Evaluated(s.live.value) <= c.items
    ensures CountsEvaluations(c, s, Next(c, s, WorkerStep))
  {
  }

  lemma StepCountsEvaluations(c: Config, s: State, a: Action)
    requires s.live.Some? && LiveOk(c, s) && Enabled(c, s, a) && Evaluated(s.live.value) <= c.items
    requires a.WorkerStep? || a.Evaluate? || a.Raise?
    ensures CountsEvaluations(c, s, Next(c, s, a))
  {
    if a.WorkerStep? {
      WorkerStepCounts(c, s);
    }
  }

  /** A live delivery goes on with a lower rank, or ends. */
  lemma LiveStepUsesPotential(c: Config, s: State, t: State)
    requires QueueInv(c, s) && s.live.Some? && |t.ledger| == |s.ledger|
    requires 1 <= Rank(c, s.live.value)
    requires t.live.Some? ==>
               && 1 <= Rank(c, t.live.value) < Rank(c, s.live.value)
               && t.live.value.tries == s.live.value.tries
               && (InItem(t.live.value.phase) ==> t.live.value.i < c.items)
               && Evaluated(t.live.value) <= c.items
               && t.evaluations - Evaluated(t.live.value) == s.evaluations - Evaluated(s.live.value)
    requires t.live.None? ==>
               && t.evaluations == s.evaluations && t.last.Some?
               && (t.last.value.Reraised? ==> t.last.value.tries == s.live.value.tries < c.maxRetries)
    ensures QueueInv(c, t) && 0 <= Potential(c, t) && Potential(c, t) + 1 <= Potential(c, s)
  {
    OneTryFewer(MaxTries(c) - s.live.value.tries, PerTry(c));
    OneTryFewer(|s.ledger|, c.items);
  }

  /** API requests and expiry touch neither the delivery nor the queue. */
  lemma OutsideChangesNothing(c: Config, s: State, a: Action)
    requires Enabled(c, s, a) && !ByWorker(a)
    ensures var t := Next(c, s, a);
      t.live == s.live && t.last == s.last && t.ledger == s.ledger && t.evaluations == s.evaluations
  {
  }

  lemma PotentialNonNegative(c: Config, s: State)
    requires QueueInv(c, s)
    ensures 0 <= Potential(c, s)
  {
    var perTry := PerTry(c);
    OneTryFewer(MaxTries(c), perTry);
    match s.live
    case Some(w) => OneTryFewer(MaxTries(c) - w.tries, perTry);
    case None =>
      if s.last.Some? && s.last.value.Reraised? {
        OneTryFewer(MaxTries(c) - s.last.value.tries, perTry);
      }
  }

  /** Worker actions use up the potential and nothing else changes it. */
  lemma StepUsesPotential(c: Config, s: State, a: Action)
    requires QueueInv(c, s) && LiveOk(c, s) && Enabled(c, s, a) && QueueDelivers(s, a)
    ensures QueueInv(c, Next(c, s, a))
    ensures 0 <= Potential(c, Next(c, s, a))
    ensures Potential(c, Next(c, s, a)) + (if ByWorker(a) then 1 else 0) <= Potential(c, s)
  {
    var t := Next(c, s, a);
    if a.Deliver? {
      DeliverUsesPotential(c, s, a.tries);
    } else if ByWorker(a) {
      if !a.Crash? {
        StepLowersRank(c, s, a);
        StepCountsEvaluations(c, s, a);
      }
      LiveStepUsesPotential(c, s, t);
    } else {
      OutsideChangesNothing(c, s, a);
      PotentialNonNegative(c, s);
    }
  }

  function WorkerActions(acts: seq<Action>): nat {
    if acts == [] then 0 else (if ByWorker(acts[0]) then 1 else 0) + WorkerActions(acts[1..])
  }

  lemma {:induction false} RunUsesPotential(c: Config, s: State, acts: seq<Action>)
    requires QueueInv(c, s) && Inv(c, s) && CanRunQueued(c, s, acts) && CanRun(c, s, acts)
    ensures QueueInv(c, Run(c, s, acts))
    ensures WorkerActions(acts) <= Potential(c, s)
    decreases |acts|
  {
    PotentialNonNegative(c, s);
    if acts != [] {
      StepUsesPotential(c, s, acts[0]);
      StepKeeps(c, s, acts[0]);
      RunUsesPotential(c, Next(c, s, acts[0]), acts[1..]);
    }
  }

  lemma AtMostPerTry(attempts: nat, tries: nat, items: nat)
    requires attempts <= tries
    ensures attempts * items <= tries * items
  {
  }

  /** The whole life of a job costs at most `max(1, max_retries)` deliveries, that many times its items in
      evaluations, and 9 + 4 * items worker actions per delivery - whatever API requests, cancels, expiries, crashes
      and exceptions do in between. */
  lemma LifecycleIsBounded(c: Config, acts: seq<Action>)
    requires CanRunQueued(c, Init(c), acts)
    ensures CanRun(c, Init(c), acts)
    ensures var s := Run(c, Init(c), acts);
      var tries := if 1 <= c.maxRetries then c.maxRetries else 1;
      && |s.ledger| <= tries
      && s.evaluations <= tries * c.items
      && WorkerActions(acts) <= tries * (9 + 4 * c.items)
  {
    QueuedRunsAreRuns(c, Init(c), acts);
    RunUsesPotential(c, Init(c), acts);
    var s := Run(c, Init(c), acts);
    AtMostPerTry(|s.ledger|, MaxTries(c), c.items);
    OneTryFewer(|s.ledger|, c.items);
  }

  // ---- Redelivery and cancel requests ----

  /** The same state with this delivery at its start. */
  function Delivered(s: State, w: Worker, ledger: seq<(nat, nat)>): State {
    s.(live := Some(w), ledger := ledger)
  }

  /** Whatever is outside the worker goes on beside a delivery as without it. */
  lemma StepBeside(c: Config, s: State, w: Worker, ledger: seq<(nat, nat)>, a: Action)
    requires !ByWorker(a) && Enabled(c, s, a)
    ensures Enabled(c, Delivered(s, w, ledger), a)
    ensures Next(c, Delivered(s, w, ledger), a) == Delivered(Next(c, s, a), w, ledger)
  {
  }

  lemma {:induction false} RunBeside(c: Config, s: State, w: Worker, ledger: seq<(nat, nat)>, acts: seq<Action>)
    requires CanRun(c, s, acts) && forall i :: 0 <= i < |acts| ==> !ByWorker(acts[i])
    ensures CanRun(c, Delivered(s, w, ledger), acts)
    ensures Run(c, Delivered(s, w, ledger), acts) == Delivered(Run(c, s, acts), w, ledger)
    decreases |acts|
  {
    if acts != [] {
      assert !ByWorker(acts[0]);
      StepBeside(c, s, w, ledger, acts[0]);
      RunBeside(c, Next(c, s, acts[0]), w, ledger, acts[1..]);
    }
  }

  /** A delivery that loads a COMPLETED or CANCELLED row leaves no trace: from its arrival to its end, through whatever
      requests and expiries happen before it loads the row, everything but the delivery's own history is as if it had
      not been made. */
  lemma RedeliveryIsIdempotent(c: Config, s: State, tries: int, meanwhile: seq<Action>)
    requires Enabled(c, s, Deliver(tries))
    requires CanRun(c, s, meanwhile) && forall i :: 0 <= i < |meanwhile| ==> !ByWorker(meanwhile[i])
    requires var status := Run(c, s, meanwhile).row.status; status == Completed || status == Cancelled
    ensures var acts := [Deliver(tries)] + meanwhile + [WorkerStep];
      var without := Run(c, s, meanwhile);
      && CanRun(c, s, acts)
      && Run(c, s, acts) == without.(live := None, ledger := s.ledger + [(0, 0)],
           last := Some(if without.row.status == Completed then SkippedCompleted else SkippedCancelled))
  {
    var w := Next(c, s, Deliver(tries)).live.value;
    var ledger := s.ledger + [(0, 0)];
    RunOne(c, s, Deliver(tries));
    assert Next(c, s, Deliver(tries)) == Delivered(s, w, ledger);
    RunBeside(c, s, w, ledger, meanwhile);
    RunSplit(c, s, [Deliver(tries)], meanwhile);
    var most := Append(c, s, [Deliver(tries)] + meanwhile, WorkerStep);
  }

  /** A cancel request gets as far as signalling, having changed nothing but itself. */
  lemma ViewAndCheck(c: Config, s: State, id: nat) returns (acts: seq<Action>)
    requires id !in s.requests && s.redisState in {Some(Queued), Some(Running)}
    ensures CanRun(c, s, acts) && forall i :: 0 <= i < |acts| ==> !ByWorker(acts[i]) && !acts[i].ExpireState?
    ensures var t := Run(c, s, acts);
      && id in t.requests && t.requests[id].CheckPassed? && t.requests[id].seen == Load(s.row)
      && t == s.(requests := s.requests[id := t.requests[id]])
  {
    acts := [ReadRow(id), ReadState(id, true), ReadProgress(id, true), CheckCancellable(id)];
    var s1 := Next(c, s, acts[0]);
    var s2 := Next(c, s1, acts[1]);
    assert s2.requests[id] == StateRead(Load(s.row), s.redisState.value);
    var s3 := Next(c, s2, acts[2]);
    assert s3.requests[id].Viewed? && s3.requests[id].status == s.redisState.value;
    var s4 := Next(c, s3, acts[3]);
    assert s4.requests == s.requests[id := s4.requests[id]];
    RunThrough(c, [s, s1, s2, s3, s4], acts);
  }

  /** A cancel request that is not interrupted, on a job whose Redis state is not terminal: Redis says
      `cancelled`, the row says `failed`. */
  lemma CancelRequest(c: Config, s: State, id: nat) returns (acts: seq<Action>)
    requires id !in s.requests && s.redisState.Some? && !Terminal(s.redisState.value)
    ensures CanRun(c, s, acts) && forall i :: 0 <= i < |acts| ==> !ByWorker(acts[i]) && !acts[i].ExpireState?
    ensures var t := Run(c, s, acts);
      && t.redisState == Some(Cancelled) && t.row.status == Failed
      && t.row.batchResults == s.row.batchResults
      && t.live == s.live && t.last == s.last && t.ledger == s.ledger && t.runs == s.runs
      && t.requests == s.requests[id := Closed]
  {
    var first := ViewAndCheck(c, s, id);
    var s4 := Run(c, s, first);
    var rest := [Signal(id), CommitCancel(id)];
    var s5 := Next(c, s4, rest[0]);
    var s6 := Next(c, s5, rest[1]);
    RunThrough(c, [s4, s5, s6], rest);
    RunSplit(c, s, first, rest);
    assert s6.requests == s.requests[id := Closed];
    acts := first + rest;
  }
}
