/** A cancel against all deliveries that the queue makes: a retry forgets it. */
module JobRedelivery {
  import opened Options
  import opened Jobs
  import opened JobAccounting
  import opened JobLifecycle
  import opened JobRow
  import opened JobCancellation
  import opened JobRetries

  /** Some delivery that ends after `s` completes, and it is the last of the run. */
  ghost predicate CompletesLater(c: Config, s: State, more: seq<Action>) {
    && CanRunQueued(c, s, more) && CanRun(c, s, more)
    && (forall i :: 0 <= i < |more| ==> !more[i].ExpireState?)
    && var t := Run(c, s, more);
       && t.live.None? && t.last == Some(EndedCompleted)
       && (s.live.Some? || |s.ledger| < |t.ledger|)
  }

  ghost predicate CanEverComplete(c: Config, s: State) {
    exists more :: CompletesLater(c, s, more)
  }

  /** The delivery at work, or the one that is due, is not the last: an exception in it is re-raised. */
  predicate RetryLeft(c: Config, s: State) {
    if s.live.Some? then s.live.value.tries < c.maxRetries else DeliveryDue(s) && TriesDue(s) < c.maxRetries
  }

  // ---- A retry forgets the cancel ----

  /** An exception ends the delivery at work, and another one is due on a failed row. */
  lemma EndReraised(c: Config, s: State) returns (acts: seq<Action>)
    requires RowInv(s) && s.live.Some? && RetryLeft(c, s)
    ensures CanRun(c, s, acts) && CanRunQueued(c, s, acts) && forall i :: 0 <= i < |acts| ==> !acts[i].ExpireState?
    ensures var t := Run(c, s, acts); DeliveryDue(t) && t.row.status == Failed && |t.ledger| == |s.ledger|
  {
    if s.live.value.phase == FailingRow {
      acts := EndFailing(c, s);
    } else if s.live.value.phase == FailingRedis {
      acts := [WorkerStep];
      RunOne(c, s, WorkerStep);
      NoDeliveryIsQueued(c, s, acts);
    } else {
      acts := Reraise(c, s);
    }
  }

  /** A due delivery is made. */
  lemma MakeDelivery(c: Config, s: State) returns (acts: seq<Action>)
    requires RowInv(s) && DeliveryDue(s) && s.dispatch != ToEnqueue
    ensures CanRun(c, s, acts) && CanRunQueued(c, s, acts) && forall i :: 0 <= i < |acts| ==> !acts[i].ExpireState?
    ensures var t := Run(c, s, acts);
      && t.live.Some? && t.live.value.tries == TriesDue(s) && |t.ledger| == |s.ledger| + 1 && RowInv(t)
  {
    var a := Deliver(TriesDue(s));
    acts := [a];
    RunOne(c, s, a);
    StepKeepsRow(c, s, a);
    assert acts[1..] == [] && CanRunQueued(c, Next(c, s, a), []);
  }

  /** The due delivery runs to its end in both stores, every item failing to evaluate. */
  lemma DueCompletes(c: Config, s: State) returns (acts: seq<Action>)
    requires DeliveryDue(s) && !Skips(s.row.status)
    ensures CanRun(c, s, acts) && CanRunQueued(c, s, acts) && forall i :: 0 <= i < |acts| ==> !acts[i].ExpireState?
    ensures var t := Run(c, s, acts);
      && t.live.None? && t.last == Some(EndedCompleted) && |t.ledger| == |s.ledger| + 1
      && t.row.status == Completed && t.row.batchResults.Some? && t.redisState == Some(Completed)
  {
    acts := StartDelivery(c, s);
    var t := Run(c, s, acts);
    var rest := FinishDelivery(c, t);
    NoDeliveryIsQueued(c, t, rest);
    QueuedSplit(c, s, acts, rest);
    acts := acts + rest;
  }

  lemma RetryCompletesLater(c: Config, s: State) returns (more: seq<Action>)
    requires RowInv(s) && RetryLeft(c, s) && s.dispatch != ToEnqueue
    ensures CompletesLater(c, s, more)
    ensures var t := Run(c, s, more);
      t.row.status == Completed && t.row.batchResults.Some? && t.redisState == Some(Completed)
  {
    more := [];
    if s.live.None? {
      more := MakeDelivery(c, s);
    }
    var end := EndReraised(c, Run(c, s, more));
    QueuedSplit(c, s, more, end);
    more := more + end;
    var rest := DueCompletes(c, Run(c, s, more));
    QueuedSplit(c, s, more, rest);
    more := more + rest;
  }

  // ---- Without one, the next delivery decides ----

  /** The queue makes no further delivery: the one at work is the last, or none is due. */
  predicate NoMoreDeliveries(c: Config, s: State) {
    && (s.live.Some? ==> c.maxRetries <= s.live.value.tries && s.ledger != [])
    && (s.live.None? ==> !DeliveryDue(s))
  }

  lemma StepMakesNoMore(c: Config, s: State, a: Action)
    requires NoMoreDeliveries(c, s) && Enabled(c, s, a) && QueueDelivers(s, a)
    ensures NoMoreDeliveries(c, Next(c, s, a)) && !a.Deliver? && |Next(c, s, a).ledger| == |s.ledger|
  {
    if !ByWorker(a) {
      OutsideChangesNothing(c, s, a);
    }
  }

  lemma {:induction false} RunMakesNoMore(c: Config, s: State, acts: seq<Action>)
    requires NoMoreDeliveries(c, s) && CanRunQueued(c, s, acts) && CanRun(c, s, acts)
    ensures |Run(c, s, acts).ledger| == |s.ledger| && forall i :: 0 <= i < |acts| ==> !acts[i].Deliver?
    decreases |acts|
  {
    if acts != [] {
      StepMakesNoMore(c, s, acts[0]);
      RunMakesNoMore(c, Next(c, s, acts[0]), acts[1..]);
    }
  }

  lemma {:induction false} OneMoreAtMost(c: Config, s: State, acts: seq<Action>)
    requires DeliveryDue(s) && !RetryLeft(c, s) && (s.ledger == [] ==> s.last.None?)
    requires CanRunQueued(c, s, acts) && CanRun(c, s, acts)
    ensures |Run(c, s, acts).ledger| <= |s.ledger| + 1
    decreases |acts|
  {
    if acts != [] {
      var t := Next(c, s, acts[0]);
      if acts[0].Deliver? {
        RunMakesNoMore(c, t, acts[1..]);
      } else {
        OutsideChangesNothing(c, s, acts[0]);
        OneMoreAtMost(c, t, acts[1..]);
      }
    }
  }

  lemma LastDeliveryDecides(c: Config, s: State, more: seq<Action>)
    requires Inv(c, s) && RowInv(s) && !RetryLeft(c, s) && CompletesLater(c, s, more)
    ensures CompletesBy(c, s, more)
  {
    if s.live.None? && DeliveryDue(s) {
      OneMoreAtMost(c, s, more);
    } else {
      RunMakesNoMore(c, s, more);
    }
  }

  // ---- Main results ----

  /** A cancel request that has signalled can be followed by a normal completion, in any of the deliveries the queue
      makes, exactly when the delivery at work or the next one can outrun it, or an exception in that delivery would be
      re-raised: the handler then writes `failed` over `cancelled` and the retry knows nothing of the cancel. */
  lemma CancelCanBeOutrunIff(c: Config, acts: seq<Action>, id: nat)
    requires CanRunQueued(c, Init(c), acts) && CanRun(c, Init(c), acts) && Enabled(c, Run(c, Init(c), acts), Signal(id))
    ensures var s := Next(c, Run(c, Init(c), acts), Signal(id));
      CanEverComplete(c, s) <==> Outrun(c, s) || RetryLeft(c, s)
  {
    var s := AfterSignal(c, acts, id);
    if Outrun(c, s) {
      var more := OutrunCompletes(c, s);
      assert CompletesLater(c, s, more);
    } else if RetryLeft(c, s) {
      var more := RetryCompletesLater(c, s);
    } else if CanEverComplete(c, s) {
      var more :| CompletesLater(c, s, more);
      LastDeliveryDecides(c, s, more);
      NotOutrunNeverCompletes(c, s, more);
    }
  }

  /** For every batch and any retry limit above one: a run in which a cancel lands at the first poll, with the
      submission finished, so that this delivery cannot complete; and its continuation, in which an exception makes the
      queue retry the job, and both stores end completed. */
  lemma RetryForgetsCancel(c: Config) returns (acts: seq<Action>, more: seq<Action>)
    requires 1 <= c.items && 2 <= c.maxRetries
    ensures CanRunQueued(c, Init(c), acts) && CanRun(c, Init(c), acts) && Enabled(c, Run(c, Init(c), acts), Signal(0))
    ensures var s := Next(c, Run(c, Init(c), acts), Signal(0));
      && s.redisState == Some(Cancelled) && s.dispatch == Dispatched
      && s.live.Some? && s.live.value.phase == Checking && !CanStillComplete(c, s)
      && CompletesLater(c, s, more)
      && var t := Run(c, s, more);
         t.row.status == Completed && t.row.batchResults.Some? && t.redisState == Some(Completed)
  {
    acts := CancelAtFirstPoll(c);
    var s := AfterSignal(c, acts, 0);
    DeliveryOutrunsCancelIff(c, acts, 0);
    more := RetryCompletesLater(c, s);
  }

  /** The run up to the signal. */
  lemma CancelAtFirstPoll(c: Config) returns (acts: seq<Action>)
    requires 1 <= c.items
    ensures CanRunQueued(c, Init(c), acts) && CanRun(c, Init(c), acts)
    ensures var s := Run(c, Init(c), acts);
      && Enabled(c, s, Signal(0)) && s.dispatch == Dispatched
      && s.live.Some? && s.live.value.phase == Checking && s.live.value.tries == 1
  {
    acts := StartDelivery(c, Init(c));
    var s1 := Run(c, Init(c), acts);
    RunOne(c, s1, MarkQueued);
    NoDeliveryIsQueued(c, s1, [MarkQueued]);
    QueuedSplit(c, Init(c), acts, [MarkQueued]);
    acts := acts + [MarkQueued];
    var enter := EnterLoop(c, Run(c, Init(c), acts));
    QueuedSplit(c, Init(c), acts, enter);
    acts := acts + enter;
    var view := ViewAndCheck(c, Run(c, Init(c), acts), 0);
    NoDeliveryIsQueued(c, Run(c, Init(c), acts), view);
    QueuedSplit(c, Init(c), acts, view);
    acts := acts + view;
  }
}
