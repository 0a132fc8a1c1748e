/** What a cancel request that reaches Redis does to a delivery, and when it does nothing. */
module JobCancellation {
  import opened Options
  import opened Jobs
  import opened JobAccounting
  import opened JobLifecycle
  import opened JobRow

  /** The delivery has not yet written RUNNING to Redis. */
  predicate BeforeRunning(w: Worker) {
    w.phase == Loading || w.phase == MarkingRow || w.phase == MarkingRedis
  }

  /** The delivery will finish the batch without polling for cancellation again. */
  predicate PastLastPoll(c: Config, w: Worker) {
    || w.phase == FinishingRow || w.phase == FinishingRedis
    || (w.phase == LoadingItems && c.items == 0)
    || ((w.phase == Evaluating || w.phase == Committing || w.phase == Reporting) && w.i + 1 == c.items)
  }

  /** The delivery is in the loop or about to enter it. */
  predicate Working(phase: Phase) {
    phase == LoadingItems || InItem(phase)
  }

  /** Items the newest delivery has committed. */
  function Committed(s: State): nat {
    if s.ledger == [] then 0 else s.ledger[|s.ledger| - 1].0 + s.ledger[|s.ledger| - 1].1
  }

  /** The state key of the job does not expire and no further delivery starts. */
  predicate Undisturbed(acts: seq<Action>) {
    forall i :: 0 <= i < |acts| ==> !acts[i].ExpireState? && !acts[i].Deliver?
  }

  /** The delivery neither meets an exception nor dies. */
  predicate Calm(acts: seq<Action>) {
    forall i :: 0 <= i < |acts| ==> !acts[i].Raise? && !acts[i].Crash?
  }

  // ---- Bounded cancellation ----

  /** How a delivery can stand after a cancel signal that met it at `w1` with `before` items committed. */
  ghost predicate Stopping(c: Config, w1: Worker, before: nat, calm: bool, s: State) {
    && Committed(s) <= before + 1
    && match s.live
       case None =>
         && s.last.Some?
         && s.last.value != SkippedCompleted && s.last.value != SkippedCancelled
         && (s.last.value == EndedCompleted ==> PastLastPoll(c, w1))
         && (calm && Working(w1.phase) && !PastLastPoll(c, w1) ==> s.last.value == EndedCancelled)
       case Some(w) =>
         && !BeforeRunning(w)
         && (Working(w.phase) ==> s.redisState == Some(Cancelled) && s.dispatch == Dispatched)
         && (calm && Working(w1.phase) ==> w.phase != FailingRow && w.phase != FailingRedis)
         && match w.phase
            case LoadingItems => w.i == w1.i && w1.phase == LoadingItems && Committed(s) == before
            case Checking => w.i == w1.i || (w.i == w1.i + 1 && !PastLastPoll(c, w1))
            case Evaluating => w.i == w1.i && w1.phase == Evaluating && Committed(s) == before
            case Committing =>
              w.i == w1.i && (w1.phase == Evaluating || w1.phase == Committing) && Committed(s) == before
            case Reporting => w.i == w1.i && InItem(w1.phase) && w1.phase != Checking
            case FinishingRow | FinishingRedis => PastLastPoll(c, w1)
            case _ => true
  }

  lemma StoppingItemStep(c: Config, w1: Worker, before: nat, calm: bool, s: State)
    requires LiveOk(c, s) && Stopping(c, w1, before, calm, s) && Enabled(c, s, WorkerStep)
    requires s.live.value.phase == Committing || s.live.value.phase == Reporting
    ensures Stopping(c, w1, before, calm, Next(c, s, WorkerStep))
  {
    if s.live.value.phase == Committing {
      StoppingCommit(c, w1, before, calm, s);
    }
  }

  lemma StoppingCommit(c: Config, w1: Worker, before: nat, calm: bool, s: State)
    requires LiveOk(c, s) && Stopping(c, w1, before, calm, s) && Enabled(c, s, WorkerStep)
    requires s.live.value.phase == Committing
    ensures Stopping(c, w1, before, calm, Next(c, s, WorkerStep))
  {
  }

  /** The delivery polls, or is about to. */
  lemma StoppingPollStep(c: Config, w1: Worker, before: nat, calm: bool, s: State)
    requires LiveOk(c, s) && Stopping(c, w1, before, calm, s) && Enabled(c, s, WorkerStep)
    requires s.live.value.phase == LoadingItems || s.live.value.phase == Checking
    ensures Stopping(c, w1, before, calm, Next(c, s, WorkerStep))
  {
  }

  /** The delivery is on its way out of the loop: at the end of the batch, cancelled or failed. */
  lemma StoppingFinish(c: Config, w1: Worker, before: nat, calm: bool, s: State)
    requires Stopping(c, w1, before, calm, s) && Enabled(c, s, WorkerStep)
    requires s.live.value.phase == FinishingRow || s.live.value.phase == FinishingRedis
    ensures Stopping(c, w1, before, calm, Next(c, s, WorkerStep))
  {
  }

  lemma StoppingCancelled(c: Config, w1: Worker, before: nat, calm: bool, s: State)
    requires Stopping(c, w1, before, calm, s) && Enabled(c, s, WorkerStep)
    requires s.live.value.phase == CancellingRow || s.live.value.phase == CancellingRedis
    ensures Stopping(c, w1, before, calm, Next(c, s, WorkerStep))
  {
  }

  lemma StoppingFailed(c: Config, w1: Worker, before: nat, calm: bool, s: State)
    requires Stopping(c, w1, before, calm, s) && Enabled(c, s, WorkerStep)
    requires s.live.value.phase == FailingRow || s.live.value.phase == FailingRedis
    ensures Stopping(c, w1, before, calm, Next(c, s, WorkerStep))
  {
  }

  lemma StoppingWorkerStep(c: Config, w1: Worker, before: nat, calm: bool, s: State)
    requires LiveOk(c, s) && Stopping(c, w1, before, calm, s) && Enabled(c, s, WorkerStep)
    ensures Stopping(c, w1, before, calm, Next(c, s, WorkerStep))
  {
    if s.live.value.phase == Committing || s.live.value.phase == Reporting {
      StoppingItemStep(c, w1, before, calm, s);
    } else if Working(s.live.value.phase) {
      StoppingPollStep(c, w1, before, calm, s);
    } else if s.live.value.phase == FinishingRow || s.live.value.phase == FinishingRedis {
      StoppingFinish(c, w1, before, calm, s);
    } else if s.live.value.phase == CancellingRow || s.live.value.phase == CancellingRedis {
      StoppingCancelled(c, w1, before, calm, s);
    } else {
      StoppingFailed(c, w1, before, calm, s);
    }
  }

  lemma StoppingStep(c: Config, w1: Worker, before: nat, calm: bool, s: State, a: Action)
    requires LiveOk(c, s) && Stopping(c, w1, before, calm, s) && Enabled(c, s, a)
    requires !a.ExpireState? && !a.Deliver? && (calm ==> !a.Raise? && !a.Crash?)
    ensures Stopping(c, w1, before, calm, Next(c, s, a))
  {
    if a.WorkerStep? {
      StoppingWorkerStep(c, w1, before, calm, s);
    } else if a.Evaluate? || a.Raise? || a.Crash? {
      StoppingEvent(c, w1, before, calm, s, a);
    } else {
      OutsideChangesNothing(c, s, a);
    }
  }

  /** An item is evaluated, or an exception or a crash strikes. */
  lemma StoppingEvent(c: Config, w1: Worker, before: nat, calm: bool, s: State, a: Action)
    requires Stopping(c, w1, before, calm, s) && Enabled(c, s, a)
    requires a.Evaluate? || a.Raise? || a.Crash?
    requires calm ==> !a.Raise? && !a.Crash?
    ensures Stopping(c, w1, before, calm, Next(c, s, a))
  {
  }

  lemma {:induction false} StoppingRun(c: Config, w1: Worker, before: nat, calm: bool, s: State, acts: seq<Action>)
    requires Inv(c, s) && Stopping(c, w1, before, calm, s) && CanRun(c, s, acts)
    requires Undisturbed(acts) && (calm ==> Calm(acts))
    ensures Stopping(c, w1, before, calm, Run(c, s, acts))
    decreases |acts|
  {
    if acts != [] {
      assert !acts[0].ExpireState? && !acts[0].Deliver?;
      assert calm ==> !acts[0].Raise? && !acts[0].Crash?;
      StoppingStep(c, w1, before, calm, s, acts[0]);
      StepKeeps(c, s, acts[0]);
      StoppingRun(c, w1, before, calm, Next(c, s, acts[0]), acts[1..]);
    }
  }

  lemma SignalStops(c: Config, s: State, id: nat, more: seq<Action>, calm: bool)
    requires Inv(c, s) && s.live.Some? && !BeforeRunning(s.live.value) && s.dispatch == Dispatched
    requires Enabled(c, s, Signal(id)) && CanRun(c, Next(c, s, Signal(id)), more) && Undisturbed(more)
    requires calm ==> Calm(more) && Working(s.live.value.phase)
    ensures Stopping(c, s.live.value, Committed(s), calm, Run(c, Next(c, s, Signal(id)), more))
  {
    StepKeeps(c, s, Signal(id));
    StoppingRun(c, s.live.value, Committed(s), calm, Next(c, s, Signal(id)), more);
  }

  /** Once the cancel signal lands after the worker's RUNNING write (submission finished, state key not expired),
      that delivery commits at most one further item, whatever else happens. It ends CANCELLED; or COMPLETED, only
      if it was past its last poll; or on an exception or crash. */
  lemma BoundedCancellation(c: Config, acts: seq<Action>, id: nat, more: seq<Action>)
    requires CanRun(c, Init(c), acts)
    requires var s := Run(c, Init(c), acts);
      && s.live.Some? && !BeforeRunning(s.live.value) && s.dispatch == Dispatched
      && Enabled(c, s, Signal(id))
      && CanRun(c, Next(c, s, Signal(id)), more)
    requires Undisturbed(more)
    ensures var s := Run(c, Init(c), acts);
      var t := Run(c, Next(c, s, Signal(id)), more);
      var w := s.live.value;
      && Committed(t) <= Committed(s) + 1
      && (t.live.None? ==>
            && t.last.Some?
            && (t.last.value == EndedCompleted ==> PastLastPoll(c, w))
            && (Calm(more) && Working(w.phase) && !PastLastPoll(c, w) ==> t.last.value == EndedCancelled))
  {
    RunKeeps(c, Init(c), acts);
    var s := Run(c, Init(c), acts);
    SignalStops(c, s, id, more, false);
    if Calm(more) && Working(s.live.value.phase) {
      SignalStops(c, s, id, more, true);
    }
  }

  // ---- A delivery that nothing stops ----

  /** Nothing in Redis will stop this delivery. */
  predicate Unhindered(c: Config, s: State) {
    s.live.Some? &&
    var w := s.live.value;
    && w.attempt + 1 == |s.ledger|
    && (|| w.phase == MarkingRow || w.phase == MarkingRedis
        || w.phase == FinishingRow || w.phase == FinishingRedis
        || (w.phase == LoadingItems && (s.redisState != Some(Cancelled) || PastLastPoll(c, w)))
        || (InItem(w.phase) && w.i < c.items && (s.redisState != Some(Cancelled) || PastLastPoll(c, w))))
    && (BeforeRunning(w) || w.phase == LoadingItems ==> w.i == 0)
  }

  /** How the stores stand after the delivery `w` of `s` has failed its remaining items and stored its batch. */
  ghost predicate BatchStored(c: Config, s: State, w: Worker, t: State) {
    && |t.ledger| == |s.ledger| && t.dispatch == s.dispatch && t.requests == s.requests
    && t.redisState == (if BeforeRunning(w) then Some(Running) else s.redisState)
    && (w.phase != Committing || w.staged.None? ==> t.runs == s.runs)
    && t.live.Some?
    && var v := t.live.value;
      && v.phase == FinishingRedis && v.attempt == w.attempt && v.tries == w.tries
      && v.completed == w.completed && RunCount(v.results) == RunCount(w.results)
      && t.row.status == Completed && t.row.batchResults == Some(v.results)
      && (if w.phase == FinishingRow then t.progress == s.progress && v.failed == w.failed
          else 0 < c.items ==> t.progress == Some(Counts(c.items, v.completed, v.failed)))
  }

  /** Run with every item failing to evaluate, such a delivery reaches its last Redis write. */
  lemma {:induction false} ReachLastWrite(c: Config, s: State) returns (acts: seq<Action>)
    requires Unhindered(c, s) && s.live.value.phase != FinishingRedis
    ensures CanRun(c, s, acts) && Undisturbed(acts) && Calm(acts)
    ensures BatchStored(c, s, s.live.value, Run(c, s, acts))
    decreases Rank(c, s.live.value)
  {
    var w := s.live.value;
    var a := if w.phase == Evaluating then Evaluate(None) else WorkerStep;
    var t := Next(c, s, a);
    RunOne(c, s, a);
    acts := [a];
    if w.phase != FinishingRow {
      StepStaysUnhindered(c, s, a);
      var rest := ReachLastWrite(c, t);
      RunSplit(c, s, [a], rest);
      StoredFrom(c, s, a, Run(c, t, rest));
      acts := [a] + rest;
    }
  }

  lemma StoredFrom(c: Config, s: State, a: Action, t: State)
    requires Unhindered(c, s) && s.live.value.phase != FinishingRow && s.live.value.phase != FinishingRedis
    requires a == if s.live.value.phase == Evaluating then Evaluate(None) else WorkerStep
    requires Next(c, s, a).live.Some? && BatchStored(c, Next(c, s, a), Next(c, s, a).live.value, t)
    ensures BatchStored(c, s, s.live.value, t)
  {
    var w := s.live.value;
    if w.phase == Evaluating {
      ResultsGrow(w.results, FailEntry(w.i));
    }
  }

  lemma StepStaysUnhindered(c: Config, s: State, a: Action)
    requires Unhindered(c, s) && s.live.value.phase != FinishingRow && s.live.value.phase != FinishingRedis
    requires a == if s.live.value.phase == Evaluating then Evaluate(None) else WorkerStep
    ensures var t := Next(c, s, a); Unhindered(c, t) && Rank(c, t.live.value) < Rank(c, s.live.value)
  {
    if InItem(s.live.value.phase) {
      ItemStaysUnhindered(c, s, a);
    }
  }

  lemma ItemStaysUnhindered(c: Config, s: State, a: Action)
    requires Unhindered(c, s) && InItem(s.live.value.phase)
    requires a == if s.live.value.phase == Evaluating then Evaluate(None) else WorkerStep
    ensures var t := Next(c, s, a); Unhindered(c, t) && Rank(c, t.live.value) < Rank(c, s.live.value)
  {
  }

  /** And so it can complete. */
  lemma FinishDelivery(c: Config, s: State) returns (acts: seq<Action>)
    requires Unhindered(c, s)
    ensures CanRun(c, s, acts) && Undisturbed(acts) && Calm(acts)
    ensures var t := Run(c, s, acts);
      && t.live.None? && t.last == Some(EndedCompleted) && |t.ledger| == |s.ledger|
      && t.redisState == Some(Completed) && t.dispatch == s.dispatch && t.requests == s.requests
      && (s.live.value.phase != FinishingRedis ==>
            t.row.status == Completed && t.row.batchResults.Some?
            && RunCount(t.row.batchResults.value) == RunCount(s.live.value.results))
      && (s.live.value.phase == FinishingRedis ==> t.row == s.row)
      && (s.live.value.phase != Committing || s.live.value.staged.None? ==> t.runs == s.runs)
  {
    acts := [];
    if s.live.value.phase != FinishingRedis {
      acts := ReachLastWrite(c, s);
    }
    acts := Append(c, s, acts, WorkerStep);
  }

  // ---- When a cancel has no effect ----

  /** From `s` the delivery at work can still complete, or the next one that the queue makes if there is none. */
  ghost predicate CanStillComplete(c: Config, s: State) {
    exists more :: CompletesBy(c, s, more)
  }

  ghost predicate CompletesBy(c: Config, s: State, more: seq<Action>) {
    && CanRunQueued(c, s, more) && CanRun(c, s, more)
    && (forall i :: 0 <= i < |more| ==> !more[i].ExpireState? && (s.live.Some? ==> !more[i].Deliver?))
    && var t := Run(c, s, more);
       t.live.None? && t.last == Some(EndedCompleted) && |t.ledger| == |s.ledger| + (if s.live.Some? then 0 else 1)
  }

  /** The queue has a delivery of the job to make. */
  predicate DeliveryDue(s: State) {
    s.live.None? && (s.ledger == [] || (s.last.Some? && s.last.value.Reraised?))
  }

  /** The commit of this request writes the status column. */
  predicate WritesStatus(r: Request) {
    (r.CheckPassed? || r.Signalled?) && r.seen.status != Failed
  }

  ghost predicate SomeWritesStatus(s: State) {
    exists id :: id in s.requests && WritesStatus(s.requests[id])
  }

  /** A delivery about to load the row may find one it does not skip. */
  ghost predicate Startable(s: State) {
    !Skips(s.row.status) || s.dispatch == ToMarkQueued || SomeWritesStatus(s)
  }

  /** What decides whether a cancel signal can be outrun, readable off the state it leaves. */
  ghost predicate Outrun(c: Config, s: State) {
    match s.live
    case None => DeliveryDue(s) && Startable(s)
    case Some(w) =>
      || (w.phase == Loading && Startable(s))
      || w.phase == MarkingRow || w.phase == MarkingRedis
      || PastLastPoll(c, w)
      || (Working(w.phase) && s.dispatch != Dispatched)
  }

  predicate Outside(acts: seq<Action>) {
    forall i :: 0 <= i < |acts| ==> !ByWorker(acts[i]) && !acts[i].ExpireState?
  }

  lemma FreshId(ids: set<nat>) returns (id: nat)
    ensures forall k :: k in ids ==> k < id
    decreases ids
  {
    id := 0;
    if ids != {} {
      var k :| k in ids;
      var bound := FreshId(ids - {k});
      assert forall x :: x in ids ==> x == k || x in ids - {k};
      id := if k < bound then bound else k + 1;
    }
  }

  /** Cancel requests can turn a row that would be skipped into a failed one. */
  lemma MakeStartable(c: Config, s: State) returns (acts: seq<Action>)
    requires Startable(s)
    ensures CanRun(c, s, acts) && Outside(acts)
    ensures var t := Run(c, s, acts);
      && !Skips(t.row.status) && t.live == s.live && t.last == s.last && t.ledger == s.ledger
      && (t.dispatch == s.dispatch || t.dispatch == Dispatched)
  {
    acts := [];
    if Skips(s.row.status) {
      if SomeWritesStatus(s) {
        var id :| id in s.requests && WritesStatus(s.requests[id]);
        if s.requests[id].CheckPassed? {
          acts := Append(c, s, acts, Signal(id));
        }
        acts := Append(c, s, acts, CommitCancel(id));
      } else {
        var t := Next(c, s, MarkQueued);
        RunOne(c, s, MarkQueued);
        var id := FreshId(t.requests.Keys);
        var cancel := CancelRequest(c, t, id);
        RunSplit(c, s, [MarkQueued], cancel);
        CancelKeepsDispatch(c, t, cancel);
        acts := [MarkQueued] + cancel;
      }
    }
  }

  lemma {:induction false} CancelKeepsDispatch(c: Config, s: State, acts: seq<Action>)
    requires CanRun(c, s, acts) && s.dispatch == Dispatched
    ensures Run(c, s, acts).dispatch == Dispatched
    decreases |acts|
  {
    if acts != [] {
      CancelKeepsDispatch(c, Next(c, s, acts[0]), acts[1..]);
    }
  }

  /** The try number of the delivery that is due. */
  function TriesDue(s: State): int {
    if s.ledger != [] && s.last.Some? && s.last.value.Reraised? then s.last.value.tries + 1 else 1
  }

  /** That delivery once it is past its skip checks. */
  function Starting(s: State): Worker {
    Worker(|s.ledger|, TriesDue(s), MarkingRow, 0, 0, 0, [], None, Some(Load(s.row)))
  }

  /** The next delivery gets past its skip checks. */
  lemma StartDelivery(c: Config, s: State) returns (acts: seq<Action>)
    requires DeliveryDue(s) && !Skips(s.row.status)
    ensures CanRun(c, s, acts) && CanRunQueued(c, s, acts)
    ensures Calm(acts) && forall i :: 0 <= i < |acts| ==> !acts[i].ExpireState?
    ensures var t := Run(c, s, acts);
      && Unhindered(c, t) && t.live == Some(Starting(s)) && |t.ledger| == |s.ledger| + 1
      && t.dispatch == (if s.dispatch == ToEnqueue then ToMarkQueued else s.dispatch)
      && t == s.(live := t.live, ledger := t.ledger, dispatch := t.dispatch)
  {
    var tries := TriesDue(s);
    var first := if s.dispatch == ToEnqueue then [Enqueue] else [];
    var s1 := if s.dispatch == ToEnqueue then Next(c, s, Enqueue) else s;
    if s.dispatch == ToEnqueue {
      RunOne(c, s, Enqueue);
    }
    var rest := [Deliver(tries), WorkerStep];
    var s2 := Next(c, s1, rest[0]);
    var s3 := Next(c, s2, rest[1]);
    RunThrough(c, [s1, s2, s3], rest);
    assert rest[1..] == [WorkerStep] && rest[1..][1..] == [];
    assert CanRunQueued(c, s3, []) && CanRunQueued(c, s2, [WorkerStep]);
    NoDeliveryIsQueued(c, s, first);
    QueuedSplit(c, s, first, rest);
    acts := first + rest;
  }

  /** The actions that bring a signalled job to where nothing hinders its delivery. */
  lemma Unhinder(c: Config, s: State) returns (acts: seq<Action>)
    requires LiveOk(c, s) && Outrun(c, s)
    ensures CanRun(c, s, acts) && CanRunQueued(c, s, acts)
    ensures forall i :: 0 <= i < |acts| ==> !acts[i].ExpireState? && (s.live.Some? ==> !acts[i].Deliver?)
    ensures var t := Run(c, s, acts);
      && Unhindered(c, t) && |t.ledger| == |s.ledger| + (if s.live.Some? then 0 else 1)
      && (s.live.None? || BeforeRunning(s.live.value) ==> t.live.value.phase in {MarkingRow, MarkingRedis})
  {
    acts := [];
    if s.live.None? {
      acts := MakeStartable(c, s);
      NoDeliveryIsQueued(c, s, acts);
      var rest := StartDelivery(c, Run(c, s, acts));
      QueuedSplit(c, s, acts, rest);
      acts := acts + rest;
    } else {
      if s.live.value.phase == Loading {
        var first := MakeStartable(c, s);
        acts := Append(c, s, first, WorkerStep);
      } else if Working(s.live.value.phase) && !PastLastPoll(c, s.live.value) {
        acts := LateQueued(c, s);
      }
      NoDeliveryIsQueued(c, s, acts);
    }
  }

  /** The end of the submission overwrites the signal. */
  lemma LateQueued(c: Config, s: State) returns (acts: seq<Action>)
    requires s.dispatch != Dispatched
    ensures CanRun(c, s, acts) && Outside(acts)
    ensures Run(c, s, acts) == s.(dispatch := Dispatched, redisState := Some(Queued))
  {
    acts := [];
    if s.dispatch == ToEnqueue {
      acts := Append(c, s, acts, Enqueue);
    }
    acts := Append(c, s, acts, MarkQueued);
  }

  lemma OutrunCompletes(c: Config, s: State) returns (more: seq<Action>)
    requires LiveOk(c, s) && Outrun(c, s)
    ensures CompletesBy(c, s, more)
    ensures s.live.None? || BeforeRunning(s.live.value) ==>
              var t := Run(c, s, more);
              t.row.status == Completed && t.row.batchResults.Some? && t.redisState == Some(Completed)
  {
    var before := Unhinder(c, s);
    var rest := FinishDelivery(c, Run(c, s, before));
    NoDeliveryIsQueued(c, Run(c, s, before), rest);
    QueuedSplit(c, s, before, rest);
    more := before + rest;
  }

  /** With no delivery due the queue makes none. */
  lemma {:induction false} NoneDue(c: Config, s: State, acts: seq<Action>)
    requires s.live.None? && !DeliveryDue(s) && CanRunQueued(c, s, acts) && CanRun(c, s, acts)
    ensures Run(c, s, acts).ledger == s.ledger
    decreases |acts|
  {
    if acts != [] {
      if !ByWorker(acts[0]) {
        OutsideChangesNothing(c, s, acts[0]);
      }
      NoneDue(c, Next(c, s, acts[0]), acts[1..]);
    }
  }

  /** The next delivery to load the row skips the job, and nothing outside can change that. */
  ghost predicate Blocked(s: State) {
    && Skips(s.row.status) && s.dispatch == Dispatched
    && (s.redisState.Some? ==> Terminal(s.redisState.value))
    && !SomeWritesStatus(s)
  }

  /** Delivery number `n` (counted from 0) does not complete. */
  ghost predicate Doomed(n: nat, s: State) {
    || n + 1 < |s.ledger|
    || (|s.ledger| == n && s.live.None? && Blocked(s))
    || (|s.ledger| == n + 1 &&
        match s.live
        case None => s.last.Some? && s.last.value != EndedCompleted
        case Some(w) => (w.phase == Loading && Blocked(s)) || w.phase == FailingRow || w.phase == FailingRedis)
  }

  lemma BlockedStays(c: Config, s: State, a: Action)
    requires Blocked(s) && Enabled(c, s, a) && !ByWorker(a)
    ensures Blocked(Next(c, s, a))
  {
    var t := Next(c, s, a);
    forall id | id in t.requests ensures !WritesStatus(t.requests[id]) {
      assert id in s.requests ==> !WritesStatus(s.requests[id]);
    }
  }

  lemma DoomedStays(c: Config, n: nat, s: State, a: Action)
    requires Doomed(n, s) && Enabled(c, s, a) && (s.live.Some? ==> s.live.value.attempt < |s.ledger|)
    ensures Doomed(n, Next(c, s, a)) && |s.ledger| <= |Next(c, s, a).ledger|
  {
    if !ByWorker(a) {
      OutsideChangesNothing(c, s, a);
      if Blocked(s) {
        BlockedStays(c, s, a);
      }
    } else {
      WorkerStaysDoomed(c, n, s, a);
    }
  }

  lemma WorkerStaysDoomed(c: Config, n: nat, s: State, a: Action)
    requires Doomed(n, s) && Enabled(c, s, a) && (s.live.Some? ==> s.live.value.attempt < |s.ledger|)
    requires ByWorker(a)
    ensures Doomed(n, Next(c, s, a)) && |s.ledger| <= |Next(c, s, a).ledger|
  {
    if Blocked(s) {
      assert Next(c, s, a).requests == s.requests;
    }
  }

  lemma {:induction false} DoomedForever(c: Config, n: nat, s: State, acts: seq<Action>)
    requires Doomed(n, s) && Inv(c, s) && CanRun(c, s, acts)
    ensures Doomed(n, Run(c, s, acts))
    decreases |acts|
  {
    if acts != [] {
      StepKeeps(c, s, acts[0]);
      DoomedStays(c, n, s, acts[0]);
      DoomedForever(c, n, Next(c, s, acts[0]), acts[1..]);
    }
  }

  lemma NotOutrunNeverCompletes(c: Config, s: State, more: seq<Action>)
    requires Inv(c, s) && RowInv(s) && s.redisState == Some(Cancelled) && !Outrun(c, s)
    ensures !CompletesBy(c, s, more)
  {
    if CompletesBy(c, s, more) {
      if s.live.None? && !DeliveryDue(s) {
        NoneDue(c, s, more);
      } else if s.live.None? || s.live.value.phase == Loading {
        var n := if s.live.None? then |s.ledger| else |s.ledger| - 1;
        DoomedForever(c, n, s, more);
      } else {
        assert Undisturbed(more);
        StoppingRun(c, s.live.value, Committed(s), false, s, more);
      }
    }
  }

  /** After a cancel request has signalled, the delivery at work, or the next one that the queue makes if there is none,
      can still complete exactly when
      - a first delivery or one after a re-raise is due, or one is about to load the row, and it will not have to skip
        the row: the row is not COMPLETED or CANCELLED, or a pending cancel can still mark it failed, or the submitting
        request has yet to write `queued` (which lets one more cancel through); or
      - the delivery is past its skip checks and has not yet written RUNNING to Redis, or is past its last poll; or
      - the submitting request has yet to write `queued` over the signal. */
  lemma DeliveryOutrunsCancelIff(c: Config, acts: seq<Action>, id: nat)
    requires CanRunQueued(c, Init(c), acts) && CanRun(c, Init(c), acts) && Enabled(c, Run(c, Init(c), acts), Signal(id))
    ensures var s := Next(c, Run(c, Init(c), acts), Signal(id));
      CanStillComplete(c, s) <==> Outrun(c, s)
  {
    var s := AfterSignal(c, acts, id);
    if Outrun(c, s) {
      var more := OutrunCompletes(c, s);
      assert CompletesBy(c, s, more);
    } else if CanStillComplete(c, s) {
      var more :| CompletesBy(c, s, more);
      NotOutrunNeverCompletes(c, s, more);
    }
  }

  /** The state a signal leaves satisfies the invariants. */
  lemma AfterSignal(c: Config, acts: seq<Action>, id: nat) returns (s: State)
    requires CanRun(c, Init(c), acts) && Enabled(c, Run(c, Init(c), acts), Signal(id))
    ensures s == Next(c, Run(c, Init(c), acts), Signal(id))
    ensures Inv(c, s) && RowInv(s) && s.redisState == Some(Cancelled)
  {
    var r := Run(c, Init(c), acts);
    RunKeeps(c, Init(c), acts);
    RunKeepsRow(c, Init(c), acts);
    StepKeeps(c, r, Signal(id));
    StepKeepsRow(c, r, Signal(id));
    s := Next(c, r, Signal(id));
  }

  /** The documented cancel of a queued job has no lasting effect: if the request signals while a delivery is due or has
      not yet written RUNNING, and the row is not final, the job can run to COMPLETED in both stores with a full batch,
      the queue making no delivery it would not make anyway. */
  lemma QueuedCancelIsLost(c: Config, acts: seq<Action>, id: nat) returns (more: seq<Action>)
    requires CanRunQueued(c, Init(c), acts) && CanRun(c, Init(c), acts) && Enabled(c, Run(c, Init(c), acts), Signal(id))
    requires var s := Run(c, Init(c), acts);
      !Skips(s.row.status) && (DeliveryDue(s) || (s.live.Some? && BeforeRunning(s.live.value)))
    ensures var s := Next(c, Run(c, Init(c), acts), Signal(id));
      && s.redisState == Some(Cancelled)
      && CanRun(c, s, more) && CanRunQueued(c, s, more)
      && var t := Run(c, s, more);
         && t.last == Some(EndedCompleted)
         && t.row.status == Completed && t.row.batchResults.Some? && t.redisState == Some(Completed)
  {
    var s := AfterSignal(c, acts, id);
    more := OutrunCompletes(c, s);
  }
}
