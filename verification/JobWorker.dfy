/** The worker task itself: its loop, its per-item transaction, its cancellation poll and its exception handler. */
module JobWorker {
  import opened Options
  import opened Jobs
  import opened JobAccounting

  /** The batch entries of evaluated items: the id of the new run, or the index of a failed item. */
  function EntriesOf(evaluations: seq<Option<nat>>): (entries: seq<Entry>)
    ensures |entries| == |evaluations|
    ensures forall k :: 0 <= k < |entries| ==>
              entries[k] == (if evaluations[k].Some? then RunEntry(evaluations[k].value) else FailEntry(k))
  {
    if evaluations == [] then []
    else
      var n := |evaluations| - 1;
      EntriesOf(evaluations[..n])
      + [if evaluations[n].Some? then RunEntry(evaluations[n].value) else FailEntry(n)]
  }

  /** The runs those items store, in order. */
  function RecordsOf(evaluations: seq<Option<nat>>, attempt: nat): seq<RunRecord> {
    if evaluations == [] then []
    else
      var n := |evaluations| - 1;
      RecordsOf(evaluations[..n], attempt)
      + (if evaluations[n].Some? then [RunRecord(evaluations[n].value, attempt, n)] else [])
  }

  /** No evaluated item reuses the id of a stored run or of another item. */
  ghost predicate FreshIds(runs: seq<RunRecord>, evaluations: seq<Option<nat>>) {
    && (forall i, k :: 0 <= i < |evaluations| && evaluations[i].Some? && 0 <= k < |runs| ==>
          runs[k].id != evaluations[i].value)
    && (forall i, j :: 0 <= i < j < |evaluations| && evaluations[i].Some? && evaluations[j].Some? ==>
          evaluations[i].value != evaluations[j].value)
  }

  lemma {:induction false} RecordIds(evaluations: seq<Option<nat>>, attempt: nat, k: nat)
    requires k < |RecordsOf(evaluations, attempt)|
    ensures exists i :: 0 <= i < |evaluations| && evaluations[i] == Some(RecordsOf(evaluations, attempt)[k].id)
  {
    var n := |evaluations| - 1;
    if k < |RecordsOf(evaluations[..n], attempt)| {
      RecordIds(evaluations[..n], attempt, k);
      var i :| 0 <= i < n && evaluations[..n][i] == Some(RecordsOf(evaluations, attempt)[k].id);
      assert evaluations[i] == evaluations[..n][i];
    }
  }

  lemma NextIdUnused(before: seq<RunRecord>, evaluations: seq<Option<nat>>, attempt: nat, i: nat)
    requires i < |evaluations| && evaluations[i].Some? && FreshIds(before, evaluations)
    ensures !IdUsed(before + RecordsOf(evaluations[..i], attempt), evaluations[i].value)
  {
    var runs := before + RecordsOf(evaluations[..i], attempt);
    forall k | 0 <= k < |runs| ensures runs[k].id != evaluations[i].value {
      if |before| <= k {
        RecordIds(evaluations[..i], attempt, k - |before|);
      }
    }
  }

  /** Takes one protocol action. */
  lemma Take(c: Config, s0: State, s: State, a: Action) returns (t: State)
    requires Leads(c, s0, s) && Enabled(c, s, a)
    ensures t == Next(c, s, a) && Leads(c, s0, t)
  {
    LeadsOn(c, s0, s, a);
    t := Next(c, s, a);
  }

  /** The Redis call of the task, outside the handler, that raises: the write of RUNNING, the poll or the progress write
      of an item, the write of CANCELLED, or the write of COMPLETED. */
  datatype Fault =
    | NoFault | AtRunningWrite | AtPoll(item: nat) | AtProgress(item: nat) | AtCancelledWrite | AtLastWrite

  /** What Redis says after the exception handler, whose own write may raise too. */
  function HandledRedis(handlerFails: bool, before: Option<Status>): Option<Status> {
    if handlerFails then before else Some(Failed)
  }

  /** What Redis says when the fault strikes: the delivery found `start` there and wrote RUNNING unless that raised; and
      the signal has landed if it was sent by then. */
  function RedisAtFault(start: Option<Status>, signalAt: nat, fault: Fault): Option<Status> {
    match fault
    case AtRunningWrite => start
    case AtPoll(item) => if item == signalAt then Some(Cancelled) else Some(Running)
    case AtCancelledWrite => Some(Cancelled)
    case _ => Some(Running)
  }

  /** The items an uninterrupted delivery commits: it stops at the poll that sees the signal sent at `signalAt`, or at
      the fault. */
  function ItemsCommitted(c: Config, signalAt: nat, fault: Fault): (n: nat)
    ensures n <= c.items && n <= signalAt
    ensures fault.AtPoll? ==> n <= fault.item
    ensures fault.AtProgress? ==> n <= fault.item + 1
    ensures
      || n == c.items || n == signalAt
      || fault.AtRunningWrite? || (fault.AtPoll? && n == fault.item) || (fault.AtProgress? && n == fault.item + 1)
  {
    var n := if signalAt < c.items then signalAt else c.items;
    match fault
    case AtRunningWrite => 0
    case AtPoll(item) => if item < n then item else n
    case AtProgress(item) => if item + 1 < n then item + 1 else n
    case _ => n
  }

  /** The delivery gets as far as the fault. */
  predicate FaultFirst(c: Config, signalAt: nat, fault: Fault) {
    match fault
    case NoFault => false
    case AtRunningWrite => true
    case AtPoll(item) => item < c.items && item <= signalAt
    case AtProgress(item) => item < c.items && item < signalAt
    case AtCancelledWrite => signalAt < c.items
    case AtLastWrite => c.items <= signalAt
  }

  function Failure(c: Config, jobTry: int): Outcome {
    if jobTry < c.maxRetries then Reraised(jobTry) else EndedFailed
  }

  /** How a delivery ends that finds the row with this status. */
  function JobOutcome(c: Config, jobTry: int, status: Status, signalAt: nat, fault: Fault): Outcome {
    if status == Completed then SkippedCompleted
    else if status == Cancelled then SkippedCancelled
    else WorkOutcome(c, jobTry, signalAt, fault)
  }

  class JobStore {
    var row: Row
    var runs: seq<RunRecord>
    var redisState: Option<Status>
    var progress: Option<Counts>

    /** A new job: its row, no runs, nothing in Redis. */
    constructor (items: nat)
      ensures row == Row(Queued, Counts(items, 0, 0), None) && runs == [] && redisState == None && progress == None
    {
      row, runs, redisState, progress := Row(Queued, Counts(items, 0, 0), None), [], None, None;
    }

    ghost predicate Reflects(s: State)
      reads this
    {
      s.row == row && s.runs == runs && s.redisState == redisState && s.progress == progress
    }

    /** Whether a poll of the state key sees `cancelled`. */
    method IsCancelled() returns (cancelled: bool)
      ensures cancelled <==> redisState == Some(Cancelled)
    {
      cancelled := redisState.Some? && redisState.value == Cancelled;
    }

    /** Loading the row and marking the job as running, unless the delivery is to be skipped; with `fault` the write of
        RUNNING raises. */
    method Begin(c: Config, jobTry: int, attempt: nat, fault: bool, handlerFails: bool, ghost s0: State)
      returns (stopped: Option<Outcome>, ghost t: State)
      requires Reflects(s0) && s0.live.None? && s0.dispatch == Dispatched && attempt == |s0.ledger|
      modifies this
      ensures Leads(c, s0, t) && Reflects(t)
      ensures runs == old(runs) && progress == old(progress)
      ensures stopped == if old(row.status) == Completed then Some(SkippedCompleted)
                         else if old(row.status) == Cancelled then Some(SkippedCancelled)
                         else if fault then Some(Failure(c, jobTry)) else None
      ensures stopped.Some? ==> t.live.None? && t.last == stopped
      ensures old(row.status) == Completed || old(row.status) == Cancelled ==>
                row == old(row) && redisState == old(redisState)
      ensures old(row.status) != Completed && old(row.status) != Cancelled ==>
                && row == old(row).(status := if fault then Failed else Running)
                && redisState == if fault then HandledRedis(handlerFails, old(redisState)) else Some(Running)
      ensures stopped.None? ==> Looping(t, s0, LoopHead(c, attempt, jobTry, 0, 0, 0, [], Some(Load(row))))
    {
      LeadsNowhere(c, s0);
      t := Take(c, s0, s0, Deliver(jobTry));
      if row.status == Completed {
        t := Take(c, s0, t, WorkerStep);
        return Some(SkippedCompleted), t;
      }
      if row.status == Cancelled {
        t := Take(c, s0, t, WorkerStep);
        return Some(SkippedCancelled), t;
      }
      t := Take(c, s0, t, WorkerStep);
      row := row.(status := Running);
      t := Take(c, s0, t, WorkerStep);
      if fault {
        var outcome;
        outcome, t := HandleException(c, jobTry, handlerFails, s0, t);
        return Some(outcome), t;
      }
      t := EnterLoop(c, s0, t);
      stopped := None;
    }

    /** The write of RUNNING, and the items. */
    method EnterLoop(c: Config, ghost s0: State, ghost s: State) returns (ghost t: State)
      requires Leads(c, s0, s) && Reflects(s) && s.live.Some? && s.live.value.phase == MarkingRedis
      modifies this
      ensures Leads(c, s0, t) && Reflects(t)
      ensures row == old(row) && runs == old(runs) && progress == old(progress) && redisState == Some(Running)
      ensures var phase := if s.live.value.i < c.items then Checking else FinishingRow;
        t == s.(redisState := Some(Running), live := Some(s.live.value.(phase := phase, seen := Some(Load(row)))))
    {
      redisState := Some(Running);
      t := Take(c, s0, s, WorkerStep);
      t := Take(c, s0, t, WorkerStep);
    }

    /** The poll before an item, and the exit it may take, in which `fault` makes the last write raise. */
    method Poll(c: Config, w: Worker, fault: bool, handlerFails: bool, ghost s0: State, ghost s: State)
      returns (stopped: Option<Outcome>, ghost t: State)
      requires Leads(c, s0, s) && Reflects(s)
      requires w.phase == Checking && Looping(s, s, w)
      modifies this
      ensures Leads(c, s0, t) && Reflects(t)
      ensures stopped == if old(redisState) != Some(Cancelled) then None
                         else Some(if fault then Failure(c, w.tries) else EndedCancelled)
      ensures runs == old(runs) && progress == old(progress)
      ensures stopped.Some? ==>
                && row == old(row).(status := if fault then Failed else Cancelled)
                && redisState == (if fault then HandledRedis(handlerFails, Some(Cancelled)) else Some(Cancelled))
                && t.live.None? && t.last == stopped
      ensures stopped.None? ==>
                row == old(row) && redisState == old(redisState) && Looping(t, s, w.(phase := Evaluating))
    {
      stopped := None;
      var cancelled := IsCancelled();
      t := Take(c, s0, s, WorkerStep);
      if cancelled {
        row := row.(status := Cancelled);
        t := Take(c, s0, t, WorkerStep);
        if fault {
          var outcome;
          outcome, t := HandleException(c, w.tries, handlerFails, s0, t);
          return Some(outcome), t;
        }
        redisState := Some(Cancelled);
        t := Take(c, s0, t, WorkerStep);
        stopped := Some(EndedCancelled);
      }
    }

    /** The last commit and the last Redis write; with `fault` that write raises. */
    method FinishBatch(c: Config, w: Worker, fault: bool, handlerFails: bool, ghost s0: State, ghost s: State)
      returns (outcome: Outcome, ghost t: State)
      requires Leads(c, s0, s) && Reflects(s)
      requires w.phase == FinishingRow && Looping(s, s0, w)
      modifies this
      ensures Leads(c, s0, t) && Reflects(t)
      ensures outcome == if fault then Failure(c, w.tries) else EndedCompleted
      ensures t.live.None? && t.last == Some(outcome)
      ensures row == old(row).(status := if fault then Failed else Completed, batchResults := Some(w.results))
      ensures redisState == if fault then HandledRedis(handlerFails, old(redisState)) else Some(Completed)
      ensures runs == old(runs) && progress == old(progress)
    {
      row := row.(status := Completed, batchResults := Some(w.results));
      t := Take(c, s0, s, WorkerStep);
      if fault {
        outcome, t := HandleException(c, w.tries, handlerFails, s0, t);
        return;
      }
      redisState := Some(Completed);
      t := Take(c, s0, t, WorkerStep);
      outcome := EndedCompleted;
    }

    /** The body of the loop for one item that was not cancelled: evaluate, then one transaction for the run and the
        counters. `w` holds the loop's local variables; the session has loaded the counters as they are, or nothing. */
    method ProcessItem(c: Config, w: Worker, evaluation: Option<nat>, ghost s0: State, ghost s: State)
      returns (batchResults: seq<Entry>, completed: nat, failed: nat, ghost t: State)
      requires Leads(c, s0, s) && Reflects(s)
      requires Looping(s, s0, w.(phase := Evaluating)) && w.staged == None
      requires w.seen.Some? ==> w.seen.value.counts == row.counts
      requires evaluation.Some? ==> !IdUsed(runs, evaluation.value)
      modifies this
      ensures Leads(c, s0, t) && Reflects(t)
      ensures batchResults == w.results + [if evaluation.Some? then RunEntry(evaluation.value) else FailEntry(w.i)]
      ensures completed == w.completed + (if evaluation.Some? then 1 else 0)
      ensures failed == w.failed + (if evaluation.Some? then 0 else 1)
      ensures runs == old(runs) + (if evaluation.Some? then [RunRecord(evaluation.value, w.attempt, w.i)] else [])
      ensures row == old(row).(counts := old(row).counts.(completed := completed, failed := failed))
      ensures redisState == old(redisState) && progress == old(progress)
      ensures Looping(t, s0, w.(phase := Reporting, results := batchResults, completed := completed, failed := failed,
                                seen := None))
    {
      t := Take(c, s0, s, Evaluate(evaluation));
      var staged: seq<RunRecord> := [];
      match evaluation {
        case Some(id) =>
          staged := [RunRecord(id, w.attempt, w.i)];
          batchResults := w.results + [RunEntry(id)];
          completed, failed := w.completed + 1, w.failed;
        case None =>
          batchResults := w.results + [FailEntry(w.i)];
          completed, failed := w.completed, w.failed + 1;
      }
      // one commit
      row := row.(counts := row.counts.(completed := completed, failed := failed));
      runs := runs + staged;
      t := Take(c, s0, t, WorkerStep);
    }

    /** The exception handler of the task: row, Redis, then re-raise or give up; with `handlerFails` its Redis write
        raises, which it swallows. */
    method HandleException(c: Config, jobTry: int, handlerFails: bool, ghost s0: State, ghost s: State)
      returns (outcome: Outcome, ghost t: State)
      requires Leads(c, s0, s) && Reflects(s)
      requires s.live.Some? && s.live.value.tries == jobTry
      requires s.live.value.phase != FailingRow && s.live.value.phase != FailingRedis
      modifies this
      ensures Leads(c, s0, t) && Reflects(t)
      ensures t.live.None? && t.last == Some(outcome)
      ensures row == old(row).(status := Failed) && redisState == HandledRedis(handlerFails, old(redisState))
      ensures runs == old(runs) && progress == old(progress)
      ensures outcome == Failure(c, jobTry)
    {
      t := Take(c, s0, s, Raise);
      row := row.(status := Failed);
      t := Take(c, s0, t, WorkerStep);
      t := ReportFailure(c, handlerFails, s0, t);
      outcome := if jobTry < c.maxRetries then Reraised(jobTry) else EndedFailed;
    }

    /** The handler's Redis write, whose own exception is swallowed. */
    method ReportFailure(c: Config, handlerFails: bool, ghost s0: State, ghost s: State) returns (ghost t: State)
      requires Leads(c, s0, s) && Reflects(s) && s.live.Some? && s.live.value.phase == FailingRedis
      modifies this`redisState
      ensures Leads(c, s0, t) && Reflects(t) && redisState == HandledRedis(handlerFails, old(redisState))
      ensures t.live.None? && t.last == Some(Failure(c, s.live.value.tries))
    {
      if handlerFails {
        t := Take(c, s0, s, Raise);
      } else {
        redisState := Some(Failed);
        t := Take(c, s0, s, WorkerStep);
      }
    }

    /** The progress write after an item's commit; with `fault` it raises. */
    method Report(c: Config, w: Worker, fault: bool, handlerFails: bool, ghost s0: State, ghost s: State)
      returns (stopped: Option<Outcome>, ghost t: State)
      requires Leads(c, s0, s) && Reflects(s) && Looping(s, s0, w) && w.phase == Reporting && w.staged == None
      modifies this
      ensures Leads(c, s0, t) && Reflects(t) && runs == old(runs)
      ensures stopped == if fault then Some(Failure(c, w.tries)) else None
      ensures fault ==>
                && t.live.None? && t.last == stopped && progress == old(progress)
                && row == old(row).(status := Failed) && redisState == HandledRedis(handlerFails, old(redisState))
      ensures !fault ==>
                && Looping(t, s0, LoopHead(c, w.attempt, w.tries, w.i + 1, w.completed, w.failed, w.results, w.seen))
                && row == old(row) && redisState == old(redisState)
                && progress == Some(Counts(c.items, w.completed, w.failed))
    {
      if fault {
        var outcome;
        outcome, t := HandleException(c, w.tries, handlerFails, s0, s);
        return Some(outcome), t;
      }
      progress := Some(Counts(c.items, w.completed, w.failed));
      t := Take(c, s0, s, WorkerStep);
      stopped := None;
    }

    /** The poll of one round; with `signal` the cancel request's SET lands before it. */
    method PollRound(c: Config, w: Worker, signal: bool, canceller: nat, faults: Faults,
                     ghost s0: State, ghost s: State)
      returns (stopped: Option<Outcome>, ghost t: State)
      requires Leads(c, s0, s) && Reflects(s) && w.phase == Checking && Looping(s, s0, w)
      requires signal ==> canceller in s0.requests && s0.requests[canceller].CheckPassed?
      requires redisState != Some(Cancelled)
      modifies this
      ensures Leads(c, s0, t) && Reflects(t)
      ensures runs == old(runs) && progress == old(progress)
      ensures stopped == PollOutcome(c, w, signal, faults)
      ensures stopped.Some? ==>
                && t.live.None? && t.last == stopped && row == old(row).(status := StatusAfter(stopped.value))
                && redisState == RoundRedis(stopped.value, if signal then Some(Cancelled) else old(redisState), faults)
      ensures stopped.None? ==>
                row == old(row) && redisState == old(redisState) && Looping(t, s0, w.(phase := Evaluating))
    {
      t := s;
      if signal {
        redisState := Some(Cancelled);
        t := Take(c, s0, t, Signal(canceller));
      }
      if faults.poll {
        var outcome;
        outcome, t := HandleException(c, w.tries, faults.handler, s0, t);
        return Some(outcome), t;
      }
      stopped, t := Poll(c, w, faults.cancelled, faults.handler, s0, t);
    }

    /** One round of the loop. `stopped` is the outcome when the round ends the delivery: `signal` says that the cancel
        request's SET lands before the poll. */
    method Round(c: Config, w: Worker, evaluation: Option<nat>, signal: bool, canceller: nat, faults: Faults,
                 ghost s0: State, ghost s: State)
      returns (stopped: Option<Outcome>, next: Worker, ghost t: State)
      requires Leads(c, s0, s) && Reflects(s)
      requires w.phase == Checking && w.staged == None && Looping(s, s0, w)
      requires w.seen.Some? ==> w.seen.value.counts == row.counts
      requires evaluation.Some? ==> !IdUsed(runs, evaluation.value)
      requires signal ==> canceller in s0.requests && s0.requests[canceller].CheckPassed?
      requires redisState != Some(Cancelled)
      modifies this
      ensures Leads(c, s0, t) && Reflects(t)
      ensures var handled := !faults.poll && !signal;
        && next == (if handled then Advanced(c, w, evaluation) else w)
        && runs == old(runs) + (if handled && evaluation.Some? then [RunRecord(evaluation.value, w.attempt, w.i)]
                                else [])
        && row.counts == (if handled then old(row).counts.(completed := next.completed, failed := next.failed)
                          else old(row).counts)
      ensures row.batchResults == old(row.batchResults)
      ensures stopped == RoundOutcome(c, w, signal, faults)
      ensures stopped.Some? ==>
                && t.live.None? && t.last == stopped && progress == old(progress)
                && row.status == StatusAfter(stopped.value)
                && redisState == RoundRedis(stopped.value, if signal then Some(Cancelled) else old(redisState), faults)
      ensures stopped.None? ==>
                && Looping(t, s0, next) && row.status == old(row.status) && redisState == old(redisState)
                && progress == Some(Counts(c.items, next.completed, next.failed))
    {
      next := w;
      stopped, t := PollRound(c, w, signal, canceller, faults, s0, s);
      if stopped.Some? {
        return;
      }
      stopped, next, t := HandleItem(c, w, evaluation, faults, s0, t);
    }

    /** The rest of a round that was not cancelled. */
    method HandleItem(c: Config, w: Worker, evaluation: Option<nat>, faults: Faults, ghost s0: State, ghost s: State)
      returns (stopped: Option<Outcome>, next: Worker, ghost t: State)
      requires Leads(c, s0, s) && Reflects(s)
      requires Looping(s, s0, w.(phase := Evaluating)) && w.staged == None
      requires w.seen.Some? ==> w.seen.value.counts == row.counts
      requires evaluation.Some? ==> !IdUsed(runs, evaluation.value)
      modifies this
      ensures Leads(c, s0, t) && Reflects(t)
      ensures next == Advanced(c, w, evaluation)
      ensures runs == old(runs) + (if evaluation.Some? then [RunRecord(evaluation.value, w.attempt, w.i)] else [])
      ensures row == Row(if faults.progress then Failed else old(row.status),
                         old(row).counts.(completed := next.completed, failed := next.failed), old(row).batchResults)
      ensures stopped == if faults.progress then Some(Failure(c, w.tries)) else None
      ensures stopped.Some? ==>
                && t.live.None? && t.last == stopped && progress == old(progress)
                && redisState == HandledRedis(faults.handler, old(redisState))
      ensures stopped.None? ==>
                && Looping(t, s0, next) && redisState == old(redisState)
                && progress == Some(Counts(c.items, next.completed, next.failed))
    {
      var batchResults, completed, failed;
      batchResults, completed, failed, t := ProcessItem(c, w, evaluation, s0, s);
      next := LoopHead(c, w.attempt, w.tries, w.i + 1, completed, failed, batchResults, None);
      stopped, t := Report(c, w.(phase := Reporting, results := batchResults, completed := completed, failed := failed,
                                 seen := None), faults.progress, faults.handler, s0, t);
    }

    /** A round in terms of the whole batch: with `i` items handled before it, it ends the delivery as the fault and the
        signal say, or handles one more item. */
    method Turn(c: Config, jobTry: int, attempt: nat, evaluations: seq<Option<nat>>, i: nat, w: Worker,
                signalAt: nat, canceller: nat, fault: Fault, handlerFails: bool,
                ghost oldRuns: seq<RunRecord>, ghost oldRow: Row, ghost s0: State, ghost s: State)
      returns (stopped: Option<Outcome>, next: Worker, ghost t: State)
      requires i < |evaluations| == c.items && FreshIds(oldRuns, evaluations) && OnWay(c, signalAt, fault, i)
      requires Leads(c, s0, s) && Reflects(s) && Looping(s, s0, w)
      requires Reached(c, attempt, jobTry, evaluations, oldRuns, oldRow, i, w, runs, row.counts)
      requires signalAt < c.items ==> canceller in s0.requests && s0.requests[canceller].CheckPassed?
      requires redisState == Some(Running)
      modifies this
      ensures Leads(c, s0, t) && Reflects(t) && row.batchResults == old(row.batchResults)
      ensures stopped.Some? ==>
                && Stops(c, t, jobTry, signalAt, fault, stopped)
                && redisState == RedisAfter(stopped.value, Some(Running), signalAt, fault, handlerFails)
                && Reached(c, attempt, jobTry, evaluations, oldRuns, oldRow, ItemsCommitted(c, signalAt, fault), next,
                           runs, row.counts)
      ensures stopped.None? ==>
                && OnWay(c, signalAt, fault, i + 1) && Looping(t, s0, next) && redisState == Some(Running)
                && Reached(c, attempt, jobTry, evaluations, oldRuns, oldRow, i + 1, next, runs, row.counts)
                && progress == Some(Counts(c.items, next.completed, next.failed))
    {
      ReachedNext(c, attempt, jobTry, evaluations, oldRuns, oldRow, i, w, runs, row.counts);
      LoopStops(c, w, signalAt, fault, handlerFails, i);
      stopped, next, t := Round(c, w, evaluations[i], i == signalAt, canceller, FaultsOf(c, fault, handlerFails, i),
                                s0, s);
    }

    /** The loop. It stops at the poll that sees the signal, at the fault, or after the last item. */
    method RunLoop(c: Config, jobTry: int, attempt: nat, evaluations: seq<Option<nat>>,
                   signalAt: nat, canceller: nat, fault: Fault, handlerFails: bool, ghost s0: State, ghost s: State)
      returns (stopped: Option<Outcome>, w: Worker, ghost t: State)
      requires Leads(c, s0, s) && Reflects(s)
      requires Looping(s, s0, LoopHead(c, attempt, jobTry, 0, 0, 0, [], Some(Load(row))))
      requires |evaluations| == c.items && FreshIds(runs, evaluations) && !fault.AtRunningWrite?
      requires signalAt < c.items ==> canceller in s0.requests && s0.requests[canceller].CheckPassed?
      requires redisState == Some(Running)
      modifies this
      ensures Leads(c, s0, t) && Reflects(t)
      ensures Reached(c, attempt, jobTry, evaluations, old(runs), old(row), ItemsCommitted(c, signalAt, fault), w, runs,
                      row.counts)
      ensures stopped.None? <==> BatchIsStored(c, signalAt, fault)
      ensures row.batchResults == old(row.batchResults)
      ensures stopped.Some? ==>
                && Stops(c, t, jobTry, signalAt, fault, stopped)
                && redisState == RedisAfter(stopped.value, Some(Running), signalAt, fault, handlerFails)
      ensures stopped.None? ==>
                && Looping(t, s0, w) && redisState == Some(Running)
                && (0 < c.items ==> progress == Some(Counts(c.items, w.completed, w.failed)))
    {
      t := s;
      var i: nat := 0;
      w := LoopHead(c, attempt, jobTry, 0, 0, 0, [], Some(Load(row)));
      stopped := None;
      while i < c.items
        invariant i <= c.items && OnWay(c, signalAt, fault, i)
        invariant Leads(c, s0, t) && Reflects(t) && Looping(t, s0, w)
        invariant Reached(c, attempt, jobTry, evaluations, old(runs), old(row), i, w, runs, row.counts)
        invariant row.batchResults == old(row.batchResults)
        invariant redisState == Some(Running) && stopped.None?
        invariant 0 < i ==> progress == Some(Counts(c.items, w.completed, w.failed))
      {
        stopped, w, t := Turn(c, jobTry, attempt, evaluations, i, w, signalAt, canceller, fault, handlerFails,
                              old(runs), old(row), s0, t);
        if stopped.Some? {
          return;
        }
        i := i + 1;
      }
      LoopEnds(c, signalAt, fault);
    }

    /** The loop, and what it means for the stores. */
    method HandleBatch(c: Config, jobTry: int, attempt: nat, evaluations: seq<Option<nat>>,
                       signalAt: nat, canceller: nat, fault: Fault, handlerFails: bool, ghost s0: State, ghost s: State)
      returns (stopped: Option<Outcome>, w: Worker, ghost t: State)
      requires Leads(c, s0, s) && Reflects(s)
      requires Looping(s, s0, LoopHead(c, attempt, jobTry, 0, 0, 0, [], Some(Load(row))))
      requires |evaluations| == c.items && FreshIds(runs, evaluations) && !fault.AtRunningWrite?
      requires signalAt < c.items ==> canceller in s0.requests && s0.requests[canceller].CheckPassed?
      requires redisState == Some(Running)
      modifies this
      ensures Leads(c, s0, t) && Reflects(t) && row.batchResults == old(row.batchResults)
      ensures var n := ItemsCommitted(c, signalAt, fault);
        && runs == old(runs) + RecordsOf(evaluations[..n], attempt)
        && row.counts == CountsAfter(old(row.counts), evaluations[..n])
      ensures stopped.None? <==> BatchIsStored(c, signalAt, fault)
      ensures stopped.Some? ==>
                && Stops(c, t, jobTry, signalAt, fault, stopped)
                && redisState == RedisAfter(stopped.value, Some(Running), signalAt, fault, handlerFails)
      ensures stopped.None? ==>
                && w.phase == FinishingRow && w.tries == jobTry && w.results == EntriesOf(evaluations)
                && Looping(t, s0, w) && redisState == Some(Running)
                && (0 < c.items ==> progress == Some(Counts(c.items, row.counts.completed, row.counts.failed)))
    {
      ghost var start := row;
      stopped, w, t := RunLoop(c, jobTry, attempt, evaluations, signalAt, canceller, fault, handlerFails, s0, s);
      ReachedMeans(c, attempt, jobTry, evaluations, old(runs), start, ItemsCommitted(c, signalAt, fault), w, runs,
                   row.counts);
      if stopped.None? {
        LastWrites(c, jobTry, signalAt, fault, handlerFails);
        assert evaluations[..c.items] == evaluations;
      }
    }

    /** The loop and, if it gets to the end, the last writes. */
    method WorkThrough(c: Config, jobTry: int, attempt: nat, evaluations: seq<Option<nat>>,
                       signalAt: nat, canceller: nat, fault: Fault, handlerFails: bool, ghost s0: State, ghost s: State)
      returns (outcome: Outcome, ghost t: State)
      requires Leads(c, s0, s) && Reflects(s)
      requires Looping(s, s0, LoopHead(c, attempt, jobTry, 0, 0, 0, [], Some(Load(row))))
      requires |evaluations| == c.items && FreshIds(runs, evaluations) && !fault.AtRunningWrite?
      requires signalAt < c.items ==> canceller in s0.requests && s0.requests[canceller].CheckPassed?
      requires redisState == Some(Running)
      modifies this
      ensures Leads(c, s0, t) && Reflects(t) && t.live.None? && t.last == Some(outcome)
      ensures outcome == WorkOutcome(c, jobTry, signalAt, fault)
      ensures var n := ItemsCommitted(c, signalAt, fault);
        && runs == old(runs) + RecordsOf(evaluations[..n], attempt)
        && row.counts == CountsAfter(old(row.counts), evaluations[..n])
      ensures row.status == StatusAfter(outcome)
      ensures redisState == RedisAfter(outcome, Some(Running), signalAt, fault, handlerFails)
      ensures row.batchResults == (if BatchIsStored(c, signalAt, fault) then Some(EntriesOf(evaluations))
                                   else old(row.batchResults))
      ensures outcome == EndedCompleted && 0 < c.items ==>
                progress == Some(Counts(c.items, row.counts.completed, row.counts.failed))
    {
      var stopped, w;
      stopped, w, t := HandleBatch(c, jobTry, attempt, evaluations, signalAt, canceller, fault, handlerFails, s0, s);
      if stopped.Some? {
        return stopped.value, t;
      }
      LastWrites(c, jobTry, signalAt, fault, handlerFails);
      outcome, t := FinishBatch(c, w, fault.AtLastWrite?, handlerFails, s0, t);
    }

    /** One delivery. `evaluations[i]` is the new run's id when item i evaluates, `None` when it raises; the cancel
        request `canceller` sends its signal just before the poll of item `signalAt` (past the batch means never); the
        Redis call `fault` of the task raises, and with `handlerFails` so does the one in its exception handler. The
        delivery's outcome and the stores are exactly as the clauses say, and the whole delivery is a run of the
        protocol in `Jobs`. */
    method ProcessEvaluationJob(c: Config, jobTry: int, attempt: nat, evaluations: seq<Option<nat>>,
                                signalAt: nat, canceller: nat, fault: Fault, handlerFails: bool, ghost s0: State)
      returns (outcome: Outcome, ghost t: State)
      requires Reflects(s0) && s0.live.None? && s0.dispatch == Dispatched && attempt == |s0.ledger|
      requires |evaluations| == c.items && FreshIds(runs, evaluations)
      requires signalAt < c.items ==> canceller in s0.requests && s0.requests[canceller].CheckPassed?
      modifies this
      ensures Leads(c, s0, t) && Reflects(t)
      ensures t.live.None? && t.last == Some(outcome)
      ensures outcome == JobOutcome(c, jobTry, old(row.status), signalAt, fault)
      ensures outcome.SkippedCompleted? || outcome.SkippedCancelled? ==>
                row == old(row) && runs == old(runs) && redisState == old(redisState) && progress == old(progress)
      ensures !outcome.SkippedCompleted? && !outcome.SkippedCancelled? ==>
                var n := ItemsCommitted(c, signalAt, fault);
                && runs == old(runs) + RecordsOf(evaluations[..n], attempt)
                && row.counts == CountsAfter(old(row.counts), evaluations[..n])
                && row.batchResults == (if BatchIsStored(c, signalAt, fault) then Some(EntriesOf(evaluations))
                                        else old(row.batchResults))
                && row.status == StatusAfter(outcome)
                && redisState == RedisAfter(outcome, old(redisState), signalAt, fault, handlerFails)
      ensures outcome == EndedCompleted && 0 < c.items ==>
                progress == Some(Counts(c.items, row.counts.completed, row.counts.failed))
    {
      FirstWrite(c, jobTry, old(redisState), signalAt, fault, handlerFails);
      var stopped;
      stopped, t := Begin(c, jobTry, attempt, fault.AtRunningWrite?, handlerFails, s0);
      if stopped.Some? {
        return stopped.value, t;
      }
      outcome, t := WorkThrough(c, jobTry, attempt, evaluations, signalAt, canceller, fault, handlerFails, s0, t);
    }
  }

  /** The Redis calls of one round that raise, and whether the handler's would. */
  datatype Faults = Faults(poll: bool, cancelled: bool, progress: bool, handler: bool)

  function FaultsOf(c: Config, fault: Fault, handlerFails: bool, i: nat): Faults {
    Faults(i == PollFaultAt(c, fault), fault.AtCancelledWrite?, i == WriteFaultAt(c, fault), handlerFails)
  }

  /** How the poll of a round ends the delivery, if it does. */
  function PollOutcome(c: Config, w: Worker, signal: bool, faults: Faults): Option<Outcome> {
    if faults.poll || (signal && faults.cancelled) then Some(Failure(c, w.tries))
    else if signal then Some(EndedCancelled)
    else None
  }

  function RoundOutcome(c: Config, w: Worker, signal: bool, faults: Faults): Option<Outcome> {
    var polled := PollOutcome(c, w, signal, faults);
    if polled.None? && faults.progress then Some(Failure(c, w.tries)) else polled
  }

  /** What Redis says after a round that ended the delivery, having said `before` when it ended. */
  function RoundRedis(outcome: Outcome, before: Option<Status>, faults: Faults): Option<Status> {
    if outcome == EndedCancelled then Some(Cancelled) else HandledRedis(faults.handler, before)
  }

  /** What Redis says after a delivery that was not skipped. */
  function RedisAfter(outcome: Outcome, start: Option<Status>, signalAt: nat, fault: Fault, handlerFails: bool):
    Option<Status>
  {
    if StatusAfter(outcome) == Failed then HandledRedis(handlerFails, RedisAtFault(start, signalAt, fault))
    else Some(StatusAfter(outcome))
  }

  /** The row's status after a delivery that was not skipped. */
  function StatusAfter(outcome: Outcome): Status {
    if outcome == EndedCompleted then Completed else if outcome == EndedCancelled then Cancelled else Failed
  }

  /** The delivery gets to its last commit. */
  predicate BatchIsStored(c: Config, signalAt: nat, fault: Fault) {
    c.items <= signalAt && (fault.AtLastWrite? || !FaultFirst(c, signalAt, fault))
  }

  /** How a delivery past its skip checks ends. */
  function WorkOutcome(c: Config, jobTry: int, signalAt: nat, fault: Fault): Outcome {
    if FaultFirst(c, signalAt, fault) then Failure(c, jobTry)
    else if signalAt < c.items then EndedCancelled
    else EndedCompleted
  }

  /** At the loop head with `i` items handled, neither the signal nor the fault has struck. */
  predicate OnWay(c: Config, signalAt: nat, fault: Fault, i: nat) {
    !fault.AtRunningWrite? && i <= signalAt && i <= PollFaultAt(c, fault) && i <= WriteFaultAt(c, fault)
  }

  /** The item whose poll raises, or the end of the batch. */
  function PollFaultAt(c: Config, fault: Fault): nat {
    if fault.AtPoll? && fault.item < c.items then fault.item else c.items
  }

  /** The item whose progress write raises, or the end of the batch. */
  function WriteFaultAt(c: Config, fault: Fault): nat {
    if fault.AtProgress? && fault.item < c.items then fault.item else c.items
  }

  /** The loop has ended the delivery, as the signal and the fault say, and the row says so. */
  ghost predicate Stops(c: Config, t: State, jobTry: int, signalAt: nat, fault: Fault, stopped: Option<Outcome>) {
    && stopped == Some(WorkOutcome(c, jobTry, signalAt, fault)) && !BatchIsStored(c, signalAt, fault)
    && t.live.None? && t.last == stopped && t.row.status == StatusAfter(stopped.value)
  }

  lemma LoopStops(c: Config, w: Worker, signalAt: nat, fault: Fault, handlerFails: bool, i: nat)
    requires i < c.items && OnWay(c, signalAt, fault, i)
    ensures var faults := FaultsOf(c, fault, handlerFails, i);
      var stopped := RoundOutcome(c, w, i == signalAt, faults);
      if stopped.None? then OnWay(c, signalAt, fault, i + 1) && !faults.poll && i != signalAt
      else
        && stopped == Some(WorkOutcome(c, w.tries, signalAt, fault)) && !BatchIsStored(c, signalAt, fault)
        && ItemsCommitted(c, signalAt, fault) == (if i == signalAt || faults.poll then i else i + 1)
        && RoundRedis(stopped.value, if i == signalAt then Some(Cancelled) else Some(Running), faults)
           == RedisAfter(stopped.value, Some(Running), signalAt, fault, handlerFails)
  {
  }

  lemma LoopEnds(c: Config, signalAt: nat, fault: Fault)
    requires OnWay(c, signalAt, fault, c.items)
    ensures BatchIsStored(c, signalAt, fault) && ItemsCommitted(c, signalAt, fault) == c.items
  {
  }

  lemma LastWrites(c: Config, jobTry: int, signalAt: nat, fault: Fault, handlerFails: bool)
    requires BatchIsStored(c, signalAt, fault) && !fault.AtRunningWrite?
    ensures ItemsCommitted(c, signalAt, fault) == c.items
    ensures var outcome := WorkOutcome(c, jobTry, signalAt, fault);
      && outcome == (if fault.AtLastWrite? then Failure(c, jobTry) else EndedCompleted)
      && StatusAfter(outcome) == (if fault.AtLastWrite? then Failed else Completed)
      && RedisAfter(outcome, Some(Running), signalAt, fault, handlerFails)
           == (if fault.AtLastWrite? then HandledRedis(handlerFails, Some(Running)) else Some(Completed))
  {
  }

  lemma FirstWrite(c: Config, jobTry: int, start: Option<Status>, signalAt: nat, fault: Fault, handlerFails: bool)
    ensures var outcome := WorkOutcome(c, jobTry, signalAt, fault);
      var redis := RedisAfter(outcome, start, signalAt, fault, handlerFails);
      if fault.AtRunningWrite? then
        && outcome == Failure(c, jobTry) && StatusAfter(outcome) == Failed && redis == HandledRedis(handlerFails, start)
        && ItemsCommitted(c, signalAt, fault) == 0 && !BatchIsStored(c, signalAt, fault)
      else redis == RedisAfter(outcome, Some(Running), signalAt, fault, handlerFails)
  {
  }

  /** The row's counters after a delivery has committed these items. */
  function CountsAfter(counts: Counts, evaluations: seq<Option<nat>>): Counts {
    if evaluations == [] then counts
    else counts.(completed := RunCount(EntriesOf(evaluations)), failed := FailCount(EntriesOf(evaluations)))
  }

  /** The protocol state inside the loop: the worker's local variables, and nothing else in motion. */
  ghost predicate Looping(s: State, s0: State, w: Worker) {
    s.live == Some(w) && |s.ledger| == w.attempt + 1 && s.dispatch == Dispatched && s.requests == s0.requests
  }

  /** The worker at the loop head with these local variables. */
  function LoopHead(c: Config, attempt: nat, jobTry: int, i: nat, completed: nat, failed: nat, results: seq<Entry>,
                    seen: Option<Seen>): Worker
  {
    Worker(attempt, jobTry, if i < c.items then Checking else FinishingRow, i, completed, failed, results, None, seen)
  }

  /** The local variables after the loop has handled one more item. */
  function Advanced(c: Config, w: Worker, evaluation: Option<nat>): Worker {
    var entry := if evaluation.Some? then RunEntry(evaluation.value) else FailEntry(w.i);
    LoopHead(c, w.attempt, w.tries, w.i + 1,
             w.completed + (if evaluation.Some? then 1 else 0), w.failed + (if evaluation.Some? then 0 else 1),
             w.results + [entry], None)
  }

  /** The local variables once exactly these items are handled; the session has loaded `seen` before the first one. */
  function After(c: Config, attempt: nat, jobTry: int, evaluations: seq<Option<nat>>, seen: Seen): Worker {
    var entries := EntriesOf(evaluations);
    LoopHead(c, attempt, jobTry, |evaluations|, RunCount(entries), FailCount(entries), entries,
             if evaluations == [] then Some(seen) else None)
  }

  /** The loop's local variables, the stored runs and the row's counters. */
  datatype Progress = Progress(w: Worker, runs: seq<RunRecord>, counts: Counts)

  /** What they are once exactly the first `i` items are handled, one after the other. */
  ghost function Handled(c: Config, attempt: nat, jobTry: int, evaluations: seq<Option<nat>>,
                         oldRuns: seq<RunRecord>, oldRow: Row, i: nat): Progress
    requires i <= |evaluations|
  {
    if i == 0 then Progress(LoopHead(c, attempt, jobTry, 0, 0, 0, [], Some(Load(oldRow))), oldRuns, oldRow.counts)
    else
      var before := Handled(c, attempt, jobTry, evaluations, oldRuns, oldRow, i - 1);
      var evaluation := evaluations[i - 1];
      var next := Advanced(c, before.w, evaluation);
      Progress(next,
               before.runs + (if evaluation.Some? then [RunRecord(evaluation.value, attempt, i - 1)] else []),
               before.counts.(completed := next.completed, failed := next.failed))
  }

  ghost predicate Reached(c: Config, attempt: nat, jobTry: int, evaluations: seq<Option<nat>>,
                          oldRuns: seq<RunRecord>, oldRow: Row,
                          i: nat, w: Worker, runs: seq<RunRecord>, counts: Counts)
  {
    i <= |evaluations| && Progress(w, runs, counts) == Handled(c, attempt, jobTry, evaluations, oldRuns, oldRow, i)
  }

  /** In closed form: entries, runs and counters of the items handled. */
  lemma {:induction false} HandledIs(c: Config, attempt: nat, jobTry: int, evaluations: seq<Option<nat>>,
                                     oldRuns: seq<RunRecord>, oldRow: Row, i: nat)
    requires i <= |evaluations|
    ensures var p := Handled(c, attempt, jobTry, evaluations, oldRuns, oldRow, i);
      && p.w == After(c, attempt, jobTry, evaluations[..i], Load(oldRow))
      && p.runs == oldRuns + RecordsOf(evaluations[..i], attempt)
      && p.counts == CountsAfter(oldRow.counts, evaluations[..i])
  {
    if i > 0 {
      HandledIs(c, attempt, jobTry, evaluations, oldRuns, oldRow, i - 1);
      var before := Handled(c, attempt, jobTry, evaluations, oldRuns, oldRow, i - 1);
      OneMore(c, evaluations, attempt, jobTry, i - 1, oldRuns, oldRow, before);
    }
  }

  lemma OneMore(c: Config, evaluations: seq<Option<nat>>, attempt: nat, jobTry: int, i: nat,
                oldRuns: seq<RunRecord>, oldRow: Row, p: Progress)
    requires i < |evaluations|
    requires p.w == After(c, attempt, jobTry, evaluations[..i], Load(oldRow))
    requires p.runs == oldRuns + RecordsOf(evaluations[..i], attempt)
    requires p.counts == CountsAfter(oldRow.counts, evaluations[..i])
    ensures var next := Advanced(c, p.w, evaluations[i]);
      && next == After(c, attempt, jobTry, evaluations[..i + 1], Load(oldRow))
      && p.runs + (if evaluations[i].Some? then [RunRecord(evaluations[i].value, attempt, i)] else [])
           == oldRuns + RecordsOf(evaluations[..i + 1], attempt)
      && p.counts.(completed := next.completed, failed := next.failed)
           == CountsAfter(oldRow.counts, evaluations[..i + 1])
  {
    OneMoreItem(c, evaluations, attempt, jobTry, i, oldRow);
  }

  /** What the loop's end says about the stores and the locals. */
  lemma ReachedMeans(c: Config, attempt: nat, jobTry: int, evaluations: seq<Option<nat>>,
                     oldRuns: seq<RunRecord>, oldRow: Row, i: nat, w: Worker, runs: seq<RunRecord>, counts: Counts)
    requires Reached(c, attempt, jobTry, evaluations, oldRuns, oldRow, i, w, runs, counts)
    ensures runs == oldRuns + RecordsOf(evaluations[..i], attempt)
    ensures counts == CountsAfter(oldRow.counts, evaluations[..i])
    ensures w.tries == jobTry && w.phase == if i < c.items then Checking else FinishingRow
    ensures w.results == EntriesOf(evaluations[..i])
    ensures 0 < i ==> w.completed == counts.completed && w.failed == counts.failed
  {
    HandledIs(c, attempt, jobTry, evaluations, oldRuns, oldRow, i);
  }

  lemma ReachedNext(c: Config, attempt: nat, jobTry: int, evaluations: seq<Option<nat>>,
                    oldRuns: seq<RunRecord>, oldRow: Row,
                    i: nat, w: Worker, runs: seq<RunRecord>, counts: Counts)
    requires Reached(c, attempt, jobTry, evaluations, oldRuns, oldRow, i, w, runs, counts)
    requires i < |evaluations| == c.items && FreshIds(oldRuns, evaluations)
    ensures evaluations[i].Some? ==> !IdUsed(runs, evaluations[i].value)
    ensures w.phase == Checking && w.staged == None && w.i == i && w.attempt == attempt && w.tries == jobTry
    ensures w.seen.Some? ==> w.seen.value.counts == counts
    ensures var next := Advanced(c, w, evaluations[i]);
      Reached(c, attempt, jobTry, evaluations, oldRuns, oldRow, i + 1, next,
              runs + (if evaluations[i].Some? then [RunRecord(evaluations[i].value, attempt, i)] else []),
              counts.(completed := next.completed, failed := next.failed))
  {
    HandledIs(c, attempt, jobTry, evaluations, oldRuns, oldRow, i);
    if evaluations[i].Some? {
      NextIdUnused(oldRuns, evaluations, attempt, i);
    }
  }

  lemma OneMoreItem(c: Config, evaluations: seq<Option<nat>>, attempt: nat, jobTry: int, i: nat, row: Row)
    requires i < |evaluations|
    ensures var w := After(c, attempt, jobTry, evaluations[..i], Load(row));
      var next := After(c, attempt, jobTry, evaluations[..i + 1], Load(row));
      && w.i == i && w.attempt == attempt && w.tries == jobTry && w.staged == None
      && (i < c.items ==> w.phase == Checking)
      && next == Advanced(c, w, evaluations[i])
      && CountsAfter(row.counts, evaluations[..i + 1]) ==
         CountsAfter(row.counts, evaluations[..i]).(completed := next.completed, failed := next.failed)
    ensures RecordsOf(evaluations[..i + 1], attempt) ==
            RecordsOf(evaluations[..i], attempt)
            + (if evaluations[i].Some? then [RunRecord(evaluations[i].value, attempt, i)] else [])
  {
    EntriesGrow(evaluations, i);
    assert evaluations[..i + 1][..i] == evaluations[..i];
  }

  lemma EntriesGrow(evaluations: seq<Option<nat>>, i: nat)
    requires i < |evaluations|
    ensures var entry := if evaluations[i].Some? then RunEntry(evaluations[i].value) else FailEntry(i);
      var entries, longer := EntriesOf(evaluations[..i]), EntriesOf(evaluations[..i + 1]);
      && longer == entries + [entry]
      && RunCount(longer) == RunCount(entries) + (if entry.RunEntry? then 1 else 0)
      && FailCount(longer) == FailCount(entries) + (if entry.FailEntry? then 1 else 0)
  {
    var entry := if evaluations[i].Some? then RunEntry(evaluations[i].value) else FailEntry(i);
    ResultsGrow(EntriesOf(evaluations[..i]), entry);
    assert evaluations[..i + 1][..i] == evaluations[..i];
  }
}
