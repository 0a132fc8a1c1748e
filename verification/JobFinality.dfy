/** When a completed row is final: exactly, and runs from the start in which it is not. */
module JobFinality {
  import opened Options
  import opened Jobs
  import opened JobAccounting
  import opened JobLifecycle
  import opened JobRow
  import opened JobCancellation

  predicate NeverRaises(acts: seq<Action>) {
    forall i :: 0 <= i < |acts| ==> !acts[i].Raise?
  }

  /** A counter that a commit writes because the overlay changed it, and that differs from the row's. */
  predicate Overwrites(current: nat, seen: nat, overlaid: nat) {
    overlaid != seen && overlaid != current
  }

  /** A cancel request past its check whose commit will change a completed row: it has not loaded `failed`, or it has
      overlaid a counter that is neither the one it loaded nor the row's. */
  predicate Alters(row: Row, r: Request) {
    && (r.CheckPassed? || r.Signalled?)
    && (|| r.seen.status != Failed
        || Overwrites(row.counts.total, r.seen.counts.total, r.counts.total)
        || Overwrites(row.counts.completed, r.seen.counts.completed, r.counts.completed)
        || Overwrites(row.counts.failed, r.seen.counts.failed, r.counts.failed))
  }

  ghost predicate SomeAlters(s: State) {
    exists id :: id in s.requests && Alters(s.row, s.requests[id])
  }

  /** The submitting request has yet to write `queued`; or Redis lets a cancel request through; or one that was let
      through has yet to write; or an exception handler has. */
  ghost predicate Unsettled(s: State) {
    || s.dispatch == ToMarkQueued
    || s.redisState in {Some(Queued), Some(Running)}
    || SomeAlters(s)
    || (s.live.Some? && s.live.value.phase == FailingRow)
  }

  ghost predicate Settled(s: State) {
    s.row.status == Completed && RowInv(s) && !Unsettled(s)
  }

  lemma StaysSettled(c: Config, s: State, a: Action)
    requires Settled(s) && Enabled(c, s, a) && !a.Raise?
    ensures Settled(Next(c, s, a))
    ensures Next(c, s, a).row == s.row && Next(c, s, a).runs == s.runs
  {
    StepKeepsRow(c, s, a);
    var t := Next(c, s, a);
    forall id | id in t.requests ensures !Alters(s.row, t.requests[id]) {
      assert id in s.requests ==> !Alters(s.row, s.requests[id]);
    }
  }

  /** A settled completed row, and the stored runs, stay as they are under any further deliveries, crashes, cancel
      requests and expiries. */
  lemma {:induction false} SettledForever(c: Config, s: State, acts: seq<Action>)
    requires Settled(s) && CanRun(c, s, acts) && NeverRaises(acts)
    ensures var t := Run(c, s, acts); t.row == s.row && t.runs == s.runs && Settled(t)
    decreases |acts|
  {
    if acts != [] {
      assert !acts[0].Raise?;
      StaysSettled(c, s, acts[0]);
      SettledForever(c, Next(c, s, acts[0]), acts[1..]);
    }
  }

  ghost predicate RowCanChange(c: Config, s: State) {
    exists acts :: ChangesRow(c, s, acts) && NeverRaises(acts)
  }

  ghost predicate ChangesRow(c: Config, s: State, acts: seq<Action>) {
    CanRun(c, s, acts) && Run(c, s, acts).row != s.row
  }

  /** An unsettled completed row can be turned into a failed one, or at least get other counters. */
  lemma UnsettledChanges(c: Config, s: State) returns (acts: seq<Action>)
    requires s.row.status == Completed && Unsettled(s)
    ensures ChangesRow(c, s, acts) && NeverRaises(acts) && forall i :: 0 <= i < |acts| ==> !acts[i].Deliver?
  {
    acts := [];
    if s.live.Some? && s.live.value.phase == FailingRow {
      acts := Append(c, s, acts, WorkerStep);
    } else if SomeAlters(s) {
      var id :| id in s.requests && Alters(s.row, s.requests[id]);
      if s.requests[id].CheckPassed? {
        acts := Append(c, s, acts, Signal(id));
      }
      acts := Append(c, s, acts, CommitCancel(id));
    } else {
      if s.dispatch == ToMarkQueued {
        acts := Append(c, s, acts, MarkQueued);
      }
      var t := Run(c, s, acts);
      var id := FreshId(t.requests.Keys);
      var cancel := CancelRequest(c, t, id);
      RunSplit(c, s, acts, cancel);
      acts := acts + cancel;
    }
  }

  /** COMPLETED is final exactly when it is settled: in every reachable state with a completed row, some continuation
      without a new exception changes the row if and only if the submitting request has yet to write `queued`, or Redis
      holds a state that is not terminal, or a cancel request that passed the check would still change the row, or an
      exception handler is about to. */
  lemma CompletedIsFinalIff(c: Config, acts: seq<Action>)
    requires CanRun(c, Init(c), acts) && Run(c, Init(c), acts).row.status == Completed
    ensures var s := Run(c, Init(c), acts); RowCanChange(c, s) <==> Unsettled(s)
  {
    RunKeepsRow(c, Init(c), acts);
    var s := Run(c, Init(c), acts);
    if Unsettled(s) {
      var more := UnsettledChanges(c, s);
    } else if RowCanChange(c, s) {
      var more :| ChangesRow(c, s, more) && NeverRaises(more);
      SettledForever(c, s, more);
    }
  }

  // ---- With exceptions, and the queue's deliveries only ----

  ghost predicate RowCanChangeQueued(c: Config, s: State) {
    exists acts :: CanRunQueued(c, s, acts) && ChangesRow(c, s, acts)
  }

  lemma {:induction false} QuietForever(c: Config, s: State, acts: seq<Action>)
    requires Settled(s) && s.live.None? && !DeliveryDue(s) && CanRunQueued(c, s, acts) && CanRun(c, s, acts)
    ensures Run(c, s, acts).row == s.row
    decreases |acts|
  {
    if acts != [] {
      StaysSettled(c, s, acts[0]);
      OutsideChangesNothing(c, s, acts[0]);
      QuietForever(c, Next(c, s, acts[0]), acts[1..]);
    }
  }

  /** An exception in a delivery at work, or in one that is due, marks the row failed. */
  lemma DeliveryChanges(c: Config, s: State) returns (acts: seq<Action>)
    requires s.row.status == Completed && RowInv(s) && !Unsettled(s) && (s.live.Some? || DeliveryDue(s))
    ensures ChangesRow(c, s, acts) && CanRunQueued(c, s, acts)
  {
    var s1 := s;
    acts := [];
    if s.live.None? {
      acts := [Deliver(TriesDue(s))];
      s1 := Next(c, s, acts[0]);
      RunOne(c, s, acts[0]);
      assert acts[1..] == [] && CanRunQueued(c, s1, []);
    }
    var rest := FailRow(c, s1);
    QueuedSplit(c, s, acts, rest);
    acts := acts + rest;
  }

  lemma FailRow(c: Config, s: State) returns (acts: seq<Action>)
    requires s.live.Some? && s.live.value.phase != FailingRow && s.live.value.phase != FailingRedis
    ensures CanRun(c, s, acts) && CanRunQueued(c, s, acts) && Run(c, s, acts).row.status == Failed
  {
    acts := [Raise, WorkerStep];
    var s1 := Next(c, s, acts[0]);
    var s2 := Next(c, s1, acts[1]);
    RunThrough(c, [s, s1, s2], acts);
    NoDeliveryIsQueued(c, s, acts);
  }

  /** With exceptions allowed and only the deliveries the queue makes, a completed row can also change as long as a
      delivery is at work or due, and in no other case more. */
  lemma CompletedIsFinalIffQueued(c: Config, acts: seq<Action>)
    requires CanRunQueued(c, Init(c), acts) && CanRun(c, Init(c), acts)
    requires Run(c, Init(c), acts).row.status == Completed
    ensures var s := Run(c, Init(c), acts);
      RowCanChangeQueued(c, s) <==> Unsettled(s) || s.live.Some? || DeliveryDue(s)
  {
    RunKeepsRow(c, Init(c), acts);
    var s := Run(c, Init(c), acts);
    if Unsettled(s) {
      var more := UnsettledChanges(c, s);
      NoDeliveryIsQueued(c, s, more);
    } else if s.live.Some? || DeliveryDue(s) {
      var more := DeliveryChanges(c, s);
    } else if RowCanChangeQueued(c, s) {
      var more :| CanRunQueued(c, s, more) && ChangesRow(c, s, more);
      QuietForever(c, s, more);
    }
  }

  // ---- The write of RUNNING that is skipped ----

  /** A delivery past its skip checks says `running` in both stores. */
  lemma SaysRunning(c: Config, s: State) returns (acts: seq<Action>)
    requires s.live.Some? && s.live.value.phase == MarkingRow && s.live.value.seen == Some(Load(s.row))
    requires s.row.status == Queued
    ensures CanRun(c, s, acts)
    ensures var t := Run(c, s, acts);
      && t.live.Some? && t.row.status == Running && t.redisState == Some(Running)
      && t.requests == s.requests && t.dispatch == s.dispatch
  {
    acts := [WorkerStep, WorkerStep];
    var s1 := Next(c, s, acts[0]);
    var s2 := Next(c, s1, acts[1]);
    RunThrough(c, [s, s1, s2], acts);
  }

  /** It dies, and another one loads the row. */
  lemma DiesAndReturns(c: Config, s: State) returns (acts: seq<Action>)
    requires s.live.Some? && s.dispatch != ToEnqueue && s.row.status == Running
    ensures CanRun(c, s, acts)
    ensures var t := Run(c, s, acts);
      && t.live.Some? && t.live.value.phase == MarkingRow && t.live.value.seen == Some(Load(t.row))
      && t.row == s.row && t.redisState == s.redisState && t.requests == s.requests
  {
    acts := [Crash, Deliver(1), WorkerStep];
    var s1 := Next(c, s, acts[0]);
    var s2 := Next(c, s1, acts[1]);
    var s3 := Next(c, s2, acts[2]);
    RunThrough(c, [s, s1, s2, s3], acts);
  }

  lemma SecondDelivery(c: Config) returns (acts: seq<Action>)
    ensures CanRun(c, Init(c), acts)
    ensures var s := Run(c, Init(c), acts);
      && s.live.Some? && s.live.value.phase == MarkingRow && s.live.value.seen == Some(Load(s.row))
      && s.row.status == Running && s.redisState == Some(Running) && s.requests == map[]
  {
    acts := StartDelivery(c, Init(c));
    var running := SaysRunning(c, Run(c, Init(c), acts));
    RunSplit(c, Init(c), acts, running);
    acts := acts + running;
    var again := DiesAndReturns(c, Run(c, Init(c), acts));
    RunSplit(c, Init(c), acts, again);
    acts := acts + again;
  }

  /** A delivery that loaded `running` does not write it again: if a cancel has failed the row since, it stays failed,
      and the delivery goes on. */
  lemma RunningWriteCanBeSkipped(c: Config) returns (acts: seq<Action>)
    ensures CanRun(c, Init(c), acts + [WorkerStep])
    ensures CanRun(c, Init(c), acts) && Run(c, Init(c), acts).row.status == Failed
    ensures Run(c, Init(c), acts).live.Some? && Run(c, Init(c), acts).live.value.phase == MarkingRow
    ensures var t := Run(c, Init(c), acts + [WorkerStep]);
      t.row.status == Failed && t.live.Some? && t.live.value.phase == MarkingRedis
  {
    acts := SecondDelivery(c);
    var s := Run(c, Init(c), acts);
    var cancel := CancelRequest(c, s, 0);
    RunSplit(c, Init(c), acts, cancel);
    acts := acts + cancel;
    var longer := Append(c, Init(c), acts, WorkerStep);
  }

  // ---- Cancelling an ended job ----

  /** The submission is over and a delivery has ended in a way after which the queue makes no other; both stores say
      so, unless Redis has forgotten. */
  ghost predicate HasEnded(s: State) {
    && s.dispatch == Dispatched && s.live.None? && s.ledger != []
    && s.last in {Some(EndedCompleted), Some(EndedCancelled), Some(EndedFailed)}
    && s.row.status in {Completed, Cancelled, Failed}
    && s.redisState in {Some(Completed), Some(Cancelled), Some(Failed), None}
  }

  predicate PastCheck(s: State, id: nat) {
    id in s.requests && (s.requests[id].CheckPassed? || s.requests[id].Signalled?)
  }

  lemma {:induction false} EndedForever(c: Config, s: State, more: seq<Action>, id: nat)
    requires HasEnded(s) && !PastCheck(s, id) && CanRunQueued(c, s, more) && CanRun(c, s, more)
    ensures HasEnded(Run(c, s, more)) && !PastCheck(Run(c, s, more), id)
    decreases |more|
  {
    if more != [] {
      EndedForever(c, Next(c, s, more[0]), more[1..], id);
    }
  }

  /** Once a delivery has recorded such an end in both stores, no cancel request that starts later gets past its check,
      in any continuation the queue allows; and both stores stay at one of these ends. */
  lemma EndedJobIsNotCancelled(c: Config, acts: seq<Action>, more: seq<Action>, id: nat)
    requires CanRun(c, Init(c), acts)
    requires var s := Run(c, Init(c), acts);
      && s.dispatch == Dispatched && s.live.None? && id !in s.requests
      && (|| (s.last == Some(EndedCompleted) && s.row.status == Completed && s.redisState == Some(Completed))
          || (s.last == Some(EndedCancelled) && s.row.status == Cancelled && s.redisState == Some(Cancelled))
          || (s.last == Some(EndedFailed) && s.row.status == Failed && s.redisState == Some(Failed)))
      && CanRunQueued(c, s, more) && CanRun(c, s, more)
    ensures var t := Run(c, Run(c, Init(c), acts), more);
      && (id in t.requests ==> !t.requests[id].CheckPassed? && !t.requests[id].Signalled?)
      && t.row.status in {Completed, Cancelled, Failed}
      && (t.redisState.Some? ==> t.redisState.value in {Completed, Cancelled, Failed})
  {
    RunKeepsRow(c, Init(c), acts);
    EndedForever(c, Run(c, Init(c), acts), more, id);
  }

  // ---- Runs in which it is not final ----

  /** Neither exceptions nor crashes. */
  predicate Smooth(acts: seq<Action>) {
    forall i :: 0 <= i < |acts| ==> !acts[i].Raise? && !acts[i].Crash? && !acts[i].ExpireState?
  }

  /** The late `queued` write of the submission reopens a job that both stores report completed, with no request open:
      a cancel is then accepted and marks the row failed. */
  lemma CompletedIsReopened(c: Config) returns (acts: seq<Action>, more: seq<Action>)
    ensures CanRunQueued(c, Init(c), acts) && CanRun(c, Init(c), acts) && Smooth(acts)
    ensures var s := Run(c, Init(c), acts);
      && s.row.status == Completed && s.redisState == Some(Completed) && s.live.None? && s.requests == map[]
      && CanRunQueued(c, s, more) && CanRun(c, s, more) && Smooth(more)
      && var t := Run(c, s, more);
         t.row.status == Failed && t.row.batchResults == s.row.batchResults && t.row.batchResults.Some?
  {
    acts := StartDelivery(c, Init(c));
    var s := Run(c, Init(c), acts);
    var rest := FinishDelivery(c, s);
    NoDeliveryIsQueued(c, s, rest);
    QueuedSplit(c, Init(c), acts, rest);
    acts := acts + rest;
    more := Reopen(c, Run(c, Init(c), acts));
  }

  lemma Reopen(c: Config, s: State) returns (acts: seq<Action>)
    requires s.dispatch == ToMarkQueued && s.requests == map[]
    ensures CanRunQueued(c, s, acts) && CanRun(c, s, acts) && Smooth(acts)
    ensures var t := Run(c, s, acts); t.row.status == Failed && t.row.batchResults == s.row.batchResults
  {
    var t := Next(c, s, MarkQueued);
    RunOne(c, s, MarkQueued);
    var cancel := CancelRequest(c, t, 0);
    RunSplit(c, s, [MarkQueued], cancel);
    acts := [MarkQueued] + cancel;
    NoDeliveryIsQueued(c, s, acts);
  }

  /** From the first delivery past its skip checks to its last Redis write, with the submission finished meanwhile. */
  lemma ToLastWrite(c: Config, s: State) returns (acts: seq<Action>)
    requires Unhindered(c, s) && s.dispatch == ToMarkQueued && s.live.value.phase == MarkingRow
    ensures CanRun(c, s, acts) && CanRunQueued(c, s, acts) && Smooth(acts)
    ensures var t := Run(c, s, acts);
      && t.live.Some? && t.live.value.phase == FinishingRedis && t.live.value.tries == s.live.value.tries
      && t.redisState == Some(Running) && t.dispatch == Dispatched && t.requests == s.requests
      && t.row.status == Completed && t.row.batchResults.Some?
      && BatchStored(c, s.(dispatch := Dispatched, redisState := Some(Queued)), s.live.value, t)
  {
    var s1 := Next(c, s, MarkQueued);
    RunOne(c, s, MarkQueued);
    var last := ReachLastWrite(c, s1);
    RunSplit(c, s, [MarkQueued], last);
    acts := [MarkQueued] + last;
    NoDeliveryIsQueued(c, s, acts);
  }

  /** A whole cancel request there, and then the last Redis write. */
  lemma CancelAtLastWrite(c: Config, s: State) returns (acts: seq<Action>)
    requires s.live.Some? && s.live.value.phase == FinishingRedis && s.requests == map[]
    requires s.redisState == Some(Running) && s.dispatch == Dispatched
    ensures CanRun(c, s, acts) && CanRunQueued(c, s, acts) && Smooth(acts)
    ensures var t := Run(c, s, acts);
      && t.live.None? && t.last == Some(EndedCompleted) && t.dispatch == Dispatched
      && t.row.status == Failed && t.row.batchResults == s.row.batchResults && t.redisState == Some(Completed)
  {
    var cancel := CancelRequest(c, s, 0);
    acts := Append(c, s, cancel, WorkerStep);
    CancelKeepsDispatch(c, s, acts);
    NoDeliveryIsQueued(c, s, acts);
  }

  /** A cancel request that reaches Redis between the worker's last commit and its last Redis write leaves the row
      failed with full batch results while Redis says `completed`. */
  lemma CompletedCanBeOverwritten(c: Config) returns (acts: seq<Action>)
    ensures CanRunQueued(c, Init(c), acts) && CanRun(c, Init(c), acts) && Smooth(acts)
    ensures var t := Run(c, Init(c), acts);
      && t.live.None? && t.last == Some(EndedCompleted) && t.dispatch == Dispatched
      && t.row.status == Failed && t.row.batchResults.Some? && t.redisState == Some(Completed)
  {
    acts := StartDelivery(c, Init(c));
    var last := ToLastWrite(c, Run(c, Init(c), acts));
    QueuedSplit(c, Init(c), acts, last);
    acts := acts + last;
    var finish := CancelAtLastWrite(c, Run(c, Init(c), acts));
    QueuedSplit(c, Init(c), acts, finish);
    acts := acts + finish;
  }
}
