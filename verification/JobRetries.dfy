/** What a retry leaves behind: duplicate runs, and counters of two deliveries in one row. */
module JobRetries {
  import opened Options
  import opened Jobs
  import opened JobAccounting
  import opened JobLifecycle
  import opened JobRow
  import opened JobCancellation
  import opened JobFinality

  /** From its skip checks a delivery enters the loop, with the row loaded as it is. */
  lemma EnterLoop(c: Config, s: State) returns (acts: seq<Action>)
    requires 0 < c.items && Unhindered(c, s) && s.live.value.phase == MarkingRow
    ensures CanRun(c, s, acts) && CanRunQueued(c, s, acts)
    ensures var t := Run(c, s, acts);
      && t.row.counts == s.row.counts && t.redisState == Some(Running)
      && t.live == Some(s.live.value.(phase := Checking, seen := Some(Load(t.row))))
      && t == s.(row := t.row, redisState := t.redisState, live := t.live)
  {
    acts := [WorkerStep, WorkerStep, WorkerStep];
    var s1 := Next(c, s, WorkerStep);
    var s2 := Next(c, s1, WorkerStep);
    var s3 := Next(c, s2, WorkerStep);
    RunThrough(c, [s, s1, s2, s3], acts);
    NoDeliveryIsQueued(c, s, acts);
  }

  /** An item polled, evaluated and committed, whose run gets the number of the runs before it. */
  lemma CommitOne(c: Config, s: State) returns (acts: seq<Action>)
    requires s.live.Some? && s.live.value.phase == Checking && s.redisState == Some(Running)
    requires s.live.value.attempt < |s.ledger| && s.live.value.seen == Some(Load(s.row))
    requires !IdUsed(s.runs, |s.runs|)
    ensures CanRun(c, s, acts) && CanRunQueued(c, s, acts)
    ensures var w := s.live.value;
      var t := Run(c, s, acts);
      && t.live == Some(w.(phase := Reporting, results := w.results + [RunEntry(|s.runs|)],
                           completed := w.completed + 1, staged := None, seen := None))
      && t.runs == s.runs + [RunRecord(|s.runs|, w.attempt, w.i)]
      && t.row.counts == s.row.counts.(completed := w.completed + 1, failed := w.failed)
      && |t.ledger| == |s.ledger| && t.dispatch == s.dispatch && t.requests == s.requests
      && t.redisState == s.redisState
  {
    acts := [WorkerStep, Evaluate(Some(|s.runs|)), WorkerStep];
    var s1 := Next(c, s, acts[0]);
    var s2 := Next(c, s1, acts[1]);
    var s3 := Next(c, s2, acts[2]);
    RunThrough(c, [s, s1, s2, s3], acts);
    NoDeliveryIsQueued(c, s, acts);
  }

  /** A delivery that is due starts and commits its first item. */
  lemma DeliverOne(c: Config, s: State) returns (acts: seq<Action>)
    requires 0 < c.items && DeliveryDue(s) && !Skips(s.row.status) && !IdUsed(s.runs, |s.runs|)
    ensures CanRun(c, s, acts) && CanRunQueued(c, s, acts)
    ensures var t := Run(c, s, acts);
      && t.live == Some(Starting(s).(phase := Reporting, results := [RunEntry(|s.runs|)], completed := 1, seen := None))
      && t.runs == s.runs + [RunRecord(|s.runs|, |s.ledger|, 0)]
      && t.row.counts == s.row.counts.(completed := 1, failed := 0)
      && |t.ledger| == |s.ledger| + 1 && t.requests == s.requests && t.redisState == Some(Running)
  {
    acts := StartDelivery(c, s);
    var enter := EnterLoop(c, Run(c, s, acts));
    QueuedSplit(c, s, acts, enter);
    acts := acts + enter;
    var commit := CommitOne(c, Run(c, s, acts));
    assert [] + [RunEntry(|s.runs|)] == [RunEntry(|s.runs|)];
    QueuedSplit(c, s, acts, commit);
    acts := acts + commit;
  }

  /** The exception handler below the retry limit. */
  lemma EndFailing(c: Config, s: State) returns (acts: seq<Action>)
    requires s.live.Some? && s.live.value.phase == FailingRow && s.live.value.tries < c.maxRetries
    ensures CanRun(c, s, acts) && CanRunQueued(c, s, acts) && forall i :: 0 <= i < |acts| ==> !acts[i].ExpireState?
    ensures var t := Run(c, s, acts);
      && t == s.(live := None, last := Some(Reraised(s.live.value.tries)), row := s.row.(status := Failed),
                 redisState := Some(Failed))
  {
    acts := [WorkerStep, WorkerStep];
    var s1 := Next(c, s, WorkerStep);
    var s2 := Next(c, s1, WorkerStep);
    RunThrough(c, [s, s1, s2], acts);
    NoDeliveryIsQueued(c, s, acts);
  }

  /** An exception below the retry limit: the row says failed and a delivery is due. */
  lemma Reraise(c: Config, s: State) returns (acts: seq<Action>)
    requires s.live.Some? && s.live.value.phase != FailingRow && s.live.value.phase != FailingRedis
    requires s.live.value.tries < c.maxRetries
    ensures CanRun(c, s, acts) && CanRunQueued(c, s, acts) && forall i :: 0 <= i < |acts| ==> !acts[i].ExpireState?
    ensures var t := Run(c, s, acts);
      && t == s.(live := None, last := Some(Reraised(s.live.value.tries)), row := s.row.(status := Failed),
                 redisState := Some(Failed))
  {
    acts := [Raise];
    RunOne(c, s, Raise);
    NoDeliveryIsQueued(c, s, acts);
    var rest := EndFailing(c, Run(c, s, acts));
    QueuedSplit(c, s, acts, rest);
    acts := acts + rest;
  }

  // ---- Duplicate runs ----

  /** For every batch and any retry limit above one: the first delivery stores a run for item 0 and re-raises, the
      second stores one for item 0 again and completes. The batch names one of the two. */
  lemma RetryDuplicatesRuns(c: Config) returns (acts: seq<Action>)
    requires 1 <= c.items && 2 <= c.maxRetries
    ensures CanRunQueued(c, Init(c), acts) && CanRun(c, Init(c), acts)
    ensures var t := Run(c, Init(c), acts);
      && t.live.None? && t.last == Some(EndedCompleted) && t.row.status == Completed
      && t.runs == [RunRecord(0, 0, 0), RunRecord(1, 1, 0)]
      && t.row.batchResults.Some? && |t.row.batchResults.value| == c.items && RunCount(t.row.batchResults.value) == 1
  {
    acts := DeliverOne(c, Init(c));
    var fail := Reraise(c, Run(c, Init(c), acts));
    QueuedSplit(c, Init(c), acts, fail);
    acts := acts + fail;
    var again := RetryCompletes(c, Run(c, Init(c), acts));
    QueuedSplit(c, Init(c), acts, again);
    acts := acts + again;
    var attempt := StoredBatchIsComplete(c, acts);
  }

  lemma RetryCompletes(c: Config, s: State) returns (acts: seq<Action>)
    requires 1 <= c.items && DeliveryDue(s) && !Skips(s.row.status) && !IdUsed(s.runs, |s.runs|)
    ensures CanRun(c, s, acts) && CanRunQueued(c, s, acts)
    ensures var t := Run(c, s, acts);
      && t.live.None? && t.last == Some(EndedCompleted) && t.row.status == Completed
      && t.runs == s.runs + [RunRecord(|s.runs|, |s.ledger|, 0)]
      && t.row.batchResults.Some? && RunCount(t.row.batchResults.value) == 1
  {
    acts := DeliverOne(c, s);
    ResultsGrow([], RunEntry(|s.runs|));
    var rest := FinishDelivery(c, Run(c, s, acts));
    NoDeliveryIsQueued(c, Run(c, s, acts), rest);
    QueuedSplit(c, s, acts, rest);
    acts := acts + rest;
  }

  /** In every run of the job a stored batch names every stored run. */
  ghost predicate AlwaysNamesAllRuns(c: Config) {
    forall acts :: CanRunQueued(c, Init(c), acts) && CanRun(c, Init(c), acts) ==> NamesAllRuns(Run(c, Init(c), acts))
  }

  predicate NamesAllRuns(s: State) {
    s.row.batchResults.Some? ==> |s.runs| == RunCount(s.row.batchResults.value)
  }

  /** A stored batch always names all runs stored for its job exactly when jobs are not retried, or have no items. */
  lemma BatchNamesAllRunsIff(c: Config)
    ensures AlwaysNamesAllRuns(c) <==> c.maxRetries <= 1 || c.items == 0
  {
    if c.maxRetries <= 1 || c.items == 0 {
      forall acts | CanRunQueued(c, Init(c), acts) && CanRun(c, Init(c), acts)
        ensures NamesAllRuns(Run(c, Init(c), acts))
      {
        OneDeliveryNamesAll(c, acts);
      }
    } else {
      var acts := RetryDuplicatesRuns(c);
      assert !NamesAllRuns(Run(c, Init(c), acts));
    }
  }

  lemma OneDeliveryNamesAll(c: Config, acts: seq<Action>)
    requires c.maxRetries <= 1 || c.items == 0
    requires CanRunQueued(c, Init(c), acts) && CanRun(c, Init(c), acts)
    ensures NamesAllRuns(Run(c, Init(c), acts))
  {
    LifecycleIsBounded(c, acts);
    ExactAccounting(c, acts);
    var attempt := StoredBatchIsComplete(c, acts);
    var s := Run(c, Init(c), acts);
    if s.row.batchResults.Some? {
      RetriesDuplicateRunsIff(c, acts, s.row.batchResults.value, attempt);
    }
  }

  // ---- Mixed counters ----

  /** A cancel view that read the row before the first delivery: its attributes then hold that delivery's progress. */
  lemma ViewAfterBatch(c: Config, s: State) returns (acts: seq<Action>)
    requires 0 in s.requests && s.requests[0].RowRead?
    requires s.redisState == Some(Running) && s.progress.Some?
    ensures CanRun(c, s, acts) && CanRunQueued(c, s, acts)
    ensures Run(c, s, acts) == s.(requests := s.requests[0 := CheckPassed(s.requests[0].seen, s.progress.value)])
  {
    acts := [ReadState(0, true), ReadProgress(0, true), CheckCancellable(0)];
    var s1 := Next(c, s, acts[0]);
    var s2 := Next(c, s1, acts[1]);
    var s3 := Next(c, s2, acts[2]);
    assert s3.requests == s.requests[0 := CheckPassed(s.requests[0].seen, s.progress.value)];
    RunThrough(c, [s, s1, s2, s3], acts);
    NoDeliveryIsQueued(c, s, acts);
  }

  /** A view reads the row first; then a delivery fails every item and gets to its last Redis write. */
  lemma FailToLastWrite(c: Config) returns (acts: seq<Action>)
    requires 1 <= c.items
    ensures CanRunQueued(c, Init(c), acts) && CanRun(c, Init(c), acts)
    ensures var t := Run(c, Init(c), acts);
      && t.live.Some? && t.live.value.phase == FinishingRedis && t.live.value.tries == 1 && t.live.value.completed == 0
      && t.redisState == Some(Running) && t.runs == [] && |t.ledger| == 1
      && t.progress == Some(Counts(c.items, 0, t.live.value.failed))
      && t.requests == map[0 := RowRead(Load(Init(c).row))]
  {
    acts := [ReadRow(0)];
    RunOne(c, Init(c), ReadRow(0));
    NoDeliveryIsQueued(c, Init(c), acts);
    var start := StartDelivery(c, Run(c, Init(c), acts));
    QueuedSplit(c, Init(c), acts, start);
    acts := acts + start;
    var last := ToLastWrite(c, Run(c, Init(c), acts));
    QueuedSplit(c, Init(c), acts, last);
    acts := acts + last;
  }

  /** A delivery fails every item and is about to be retried; a cancel view has loaded the counters from before it and
      overlaid its progress. */
  lemma FailEveryItem(c: Config) returns (acts: seq<Action>)
    requires 1 <= c.items && 2 <= c.maxRetries
    ensures CanRunQueued(c, Init(c), acts) && CanRun(c, Init(c), acts)
    ensures var t := Run(c, Init(c), acts);
      && DeliveryDue(t) && t.row.status == Failed && t.runs == [] && |t.ledger| == 1
      && t.requests == map[0 := CheckPassed(Load(Init(c).row), Counts(c.items, 0, c.items))]
  {
    acts := FailToLastWrite(c);
    AllHandled(c, acts);
    var rest := ViewThenRaise(c, Run(c, Init(c), acts));
    QueuedSplit(c, Init(c), acts, rest);
    acts := acts + rest;
  }

  /** At the last Redis write every item is counted. */
  lemma AllHandled(c: Config, acts: seq<Action>)
    requires CanRun(c, Init(c), acts)
    requires var s := Run(c, Init(c), acts); s.live.Some? && s.live.value.phase == FinishingRedis
    ensures var w := Run(c, Init(c), acts).live.value; w.completed + w.failed == c.items
  {
    RunKeeps(c, Init(c), acts);
  }

  lemma ViewThenRaise(c: Config, s: State) returns (acts: seq<Action>)
    requires s.live.Some? && s.live.value.phase == FinishingRedis && s.live.value.tries < c.maxRetries && s.ledger != []
    requires 0 in s.requests && s.requests[0].RowRead? && s.redisState == Some(Running) && s.progress.Some?
    ensures CanRun(c, s, acts) && CanRunQueued(c, s, acts)
    ensures var t := Run(c, s, acts);
      && DeliveryDue(t) && t.row.status == Failed && t.runs == s.runs && t.ledger == s.ledger
      && t.requests == s.requests[0 := CheckPassed(s.requests[0].seen, s.progress.value)]
  {
    acts := ViewAfterBatch(c, s);
    var fail := Reraise(c, Run(c, s, acts));
    QueuedSplit(c, s, acts, fail);
    acts := acts + fail;
  }

  /** The retry commits one success, and then the cancel commits: it writes only the column in which the progress it
      overlaid differs from what it had loaded. */
  lemma CountersMix(c: Config) returns (acts: seq<Action>)
    requires 1 <= c.items && 2 <= c.maxRetries
    ensures CanRunQueued(c, Init(c), acts) && CanRun(c, Init(c), acts)
    ensures var t := Run(c, Init(c), acts); t.row.counts == Counts(c.items, 1, c.items) && !AddsUp(t.row.counts)
  {
    acts := FailEveryItem(c);
    var one := DeliverOne(c, Run(c, Init(c), acts));
    QueuedSplit(c, Init(c), acts, one);
    acts := acts + one;
    ViewsAreCommittedPairs(c, acts, 0);
    var cancel := FinishCancel(c, Run(c, Init(c), acts));
    QueuedSplit(c, Init(c), acts, cancel);
    acts := acts + cancel;
  }

  lemma FinishCancel(c: Config, s: State) returns (acts: seq<Action>)
    requires 0 in s.requests && s.requests[0].CheckPassed?
    ensures CanRun(c, s, acts) && CanRunQueued(c, s, acts)
    ensures Run(c, s, acts).row == CancelledRow(s.row, s.requests[0].seen, s.requests[0].counts)
  {
    acts := [Signal(0), CommitCancel(0)];
    var s1 := Next(c, s, acts[0]);
    var s2 := Next(c, s1, acts[1]);
    RunThrough(c, [s, s1, s2], acts);
    NoDeliveryIsQueued(c, s, acts);
  }

  ghost predicate AlwaysAddsUp(c: Config) {
    forall acts :: CanRunQueued(c, Init(c), acts) && CanRun(c, Init(c), acts) ==>
      AddsUp(Run(c, Init(c), acts).row.counts)
  }

  /** The row's completed and failed counters add up to at most its total in every run of a job exactly when the job is
      not retried, or has no items. */
  lemma CountersAddUpIff(c: Config)
    ensures AlwaysAddsUp(c) <==> c.maxRetries <= 1 || c.items == 0
  {
    if c.maxRetries <= 1 || c.items == 0 {
      forall acts | CanRunQueued(c, Init(c), acts) && CanRun(c, Init(c), acts)
        ensures AddsUp(Run(c, Init(c), acts).row.counts)
      {
        LifecycleIsBounded(c, acts);
        ViewsAreCommittedPairs(c, acts, 0);
      }
    } else {
      var acts := CountersMix(c);
      assert !AlwaysAddsUp(c);
    }
  }
}
