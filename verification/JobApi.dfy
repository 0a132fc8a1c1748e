/** The API's side of a batch job: submitting, viewing and cancelling, each as its handler does it when nothing else
    moves meanwhile; every handler is a run of the protocol in `Jobs`. */
module JobApi {
  import opened Options
  import opened Jobs
  import opened JobWorker

  datatype CancelReply =
    | AlreadyTerminal(status: Status)   // 409
    | NotCancellable                    // 409
    | Accepted(status: Status)

  /** The status a view shows: Redis wins over the row when the guarded read finds something. */
  function StatusShown(row: Row, redisState: Option<Status>, reached: bool): Status {
    if reached && redisState.Some? then redisState.value else row.status
  }

  function CountsShown(row: Row, progress: Option<Counts>, reached: bool): Counts {
    if reached && progress.Some? then progress.value else row.counts
  }

  /** The row is created `queued`; dispatching enqueues the job and then writes `queued` to Redis, unless that write
      raises: the submission then fails, with the job enqueued and Redis silent. */
  method SubmitJob(items: nat, maxRetries: int, marked: bool) returns (c: Config, store: JobStore, ghost t: State)
    ensures c == Config(items, maxRetries) && fresh(store)
    ensures Leads(c, Init(c), t) && store.Reflects(t)
    ensures t == Init(c).(dispatch := Dispatched, redisState := if marked then Some(Queued) else None)
  {
    c := Config(items, maxRetries);
    store := new JobStore(items);
    LeadsNowhere(c, Init(c));
    t := Take(c, Init(c), Init(c), Enqueue);
    if marked {
      store.redisState := Some(Queued);
      t := Take(c, Init(c), t, MarkQueued);
    } else {
      t := Take(c, Init(c), t, AbandonDispatch);
    }
  }

  /** `get_job`: the row, overlaid with what Redis says. The stores are only read. */
  method GetJob(c: Config, store: JobStore, id: nat, stateReached: bool, progressReached: bool,
                ghost s0: State, ghost s: State)
    returns (status: Status, counts: Counts, ghost t: State)
    requires Leads(c, s0, s) && store.Reflects(s) && id !in s.requests
    ensures Leads(c, s0, t) && store.Reflects(t)
    ensures status == StatusShown(store.row, store.redisState, stateReached)
    ensures counts == CountsShown(store.row, store.progress, progressReached)
    ensures t == s.(requests := s.requests[id :=
                      Viewed(Load(store.row), status, counts, progressReached && store.progress.Some?)])
  {
    status, counts := store.row.status, store.row.counts;
    t := Take(c, s0, s, ReadRow(id));
    if stateReached && store.redisState.Some? {
      status := store.redisState.value;
    }
    t := Take(c, s0, t, ReadState(id, stateReached));
    if progressReached && store.progress.Some? {
      counts := store.progress.value;
    }
    t := Take(c, s0, t, ReadProgress(id, progressReached));
    assert t.requests == s.requests[id :=
                           Viewed(Load(store.row), status, counts, progressReached && store.progress.Some?)];
  }

  /** The check in `cancel_job` and the SET after it. */
  method MarkForCancellation(c: Config, store: JobStore, id: nat, ghost s0: State, ghost s: State)
    returns (cancelled: bool, ghost t: State)
    requires Leads(c, s0, s) && store.Reflects(s)
    requires id in s.requests && s.requests[id].Viewed? && s.requests[id].status in {Queued, Running}
    modifies store`redisState
    ensures Leads(c, s0, t) && store.Reflects(t)
    ensures cancelled <==> old(store.redisState) in {Some(Queued), Some(Running)}
    ensures store.redisState == if cancelled then Some(Cancelled) else old(store.redisState)
    ensures t.requests == s.requests[id :=
                            if cancelled then Signalled(s.requests[id].seen, s.requests[id].counts) else Closed]
    ensures t.live == s.live && t.ledger == s.ledger && t.dispatch == s.dispatch && t.evaluations == s.evaluations
  {
    cancelled := store.redisState.Some? && !Terminal(store.redisState.value);
    t := Take(c, s0, s, CheckCancellable(id));
    if cancelled {
      store.redisState := Some(Cancelled);
      t := Take(c, s0, t, Signal(id));
    }
  }

  /** The cancel route. It is accepted exactly when the view and Redis both say `queued` or `running`; then the row says
      `failed` and carries the counts of the view, and Redis says `cancelled`; so does the reply, unless its own view
      does not reach Redis. A refused request changes nothing, and a view that says `completed`, `failed` or `cancelled`
      is what the reply reports. `viewId` numbers the second view. */
  method CancelJob(c: Config, store: JobStore, id: nat, viewId: nat, stateReached: bool, progressReached: bool,
                   stateReachedAgain: bool, progressReachedAgain: bool, ghost s0: State)
    returns (reply: CancelReply, ghost t: State)
    requires store.Reflects(s0) && id !in s0.requests && viewId !in s0.requests && id != viewId
    modifies store
    ensures Leads(c, s0, t) && store.Reflects(t)
    ensures t.live == s0.live && t.ledger == s0.ledger && t.dispatch == s0.dispatch
    ensures store.runs == old(store.runs) && store.progress == old(store.progress)
    ensures var shown := StatusShown(old(store.row), old(store.redisState), stateReached);
      && (shown in {Completed, Failed, Cancelled} ==> reply == AlreadyTerminal(shown))
      && (shown in {Queued, Running} ==>
            if old(store.redisState) in {Some(Queued), Some(Running)} then reply.Accepted? else reply == NotCancellable)
    ensures reply.Accepted? ==>
              && reply.status == (if stateReachedAgain then Cancelled else Failed)
              && store.redisState == Some(Cancelled)
              && store.row == Row(Failed, CountsShown(old(store.row), old(store.progress), progressReached),
                                  old(store.row).batchResults)
    ensures !reply.Accepted? ==>
              && store.row == old(store.row) && store.redisState == old(store.redisState)
              && id in t.requests && t.requests[id] == Closed
  {
    LeadsNowhere(c, s0);
    var seen := Load(store.row);
    var status, counts;
    status, counts, t := GetJob(c, store, id, stateReached, progressReached, s0, s0);
    if Terminal(status) {
      t := Take(c, s0, t, CheckCancellable(id));
      return AlreadyTerminal(status), t;
    }
    var cancelled;
    cancelled, t := MarkForCancellation(c, store, id, s0, t);
    if !cancelled {
      return NotCancellable, t;
    }
    // the session still holds the overlaid counts, and this commit writes the columns they changed
    store.row := CancelledRow(store.row, seen, counts);
    t := Take(c, s0, t, CommitCancel(id));
    var shown, progress;
    shown, progress, t := GetJob(c, store, viewId, stateReachedAgain, progressReachedAgain, s0, t);
    reply := Accepted(shown);
  }

  /** A job cancelled while it is queued: the cancel is accepted and reported as `cancelled`, and the delivery that
      follows evaluates every item and completes the job all the same. */
  method CancelledWhileQueued(items: nat, maxRetries: int, evaluations: seq<Option<nat>>)
    returns (reply: CancelReply, outcome: Outcome, store: JobStore, ghost c: Config, ghost final: State)
    requires |evaluations| == items && FreshIds([], evaluations)
    ensures reply == Accepted(Cancelled) && outcome == EndedCompleted
    ensures store.row.status == Completed && store.redisState == Some(Completed)
    ensures store.row.batchResults == Some(EntriesOf(evaluations)) && store.runs == RecordsOf(evaluations, 0)
    ensures c == Config(items, maxRetries) && store.Reflects(final) && Leads(c, Init(c), final)
  {
    var config;
    ghost var queued, cancelled;
    config, store, queued := SubmitJob(items, maxRetries, true);
    c := config;
    reply, cancelled := CancelJob(config, store, 0, 1, true, true, true, true, queued);
    outcome, final := store.ProcessEvaluationJob(config, 1, 0, evaluations, items, 0, NoFault, false, cancelled);
    assert evaluations[..items] == evaluations;
    LeadsTransitive(c, Init(c), queued, cancelled);
    LeadsTransitive(c, Init(c), cancelled, final);
  }

  lemma LeadsTransitive(c: Config, s: State, t: State, u: State)
    requires Leads(c, s, t) && Leads(c, t, u)
    ensures Leads(c, s, u)
  {
    LeadsIsRunning(c, s, t);
    LeadsIsRunning(c, t, u);
    var first :| CanRun(c, s, first) && Run(c, s, first) == t;
    var second :| CanRun(c, t, second) && Run(c, t, second) == u;
    RunSplit(c, s, first, second);
    LeadsIsRunning(c, s, u);
  }
}
