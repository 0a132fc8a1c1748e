/**
 One batch job, advanced by API requests, worker deliveries and two stores. A step is one database commit,
 one database read, one Redis command or one local evaluation, and anything may happen between two steps.
 */
module Jobs {
  import opened Options

  /** How many items the job has, and after how many tries an exception is no longer re-raised. */
  datatype Config = Config(items: nat, maxRetries: int)

  datatype Status = Queued | Running | Completed | Failed | Cancelled

  predicate Terminal(status: Status) {
    status == Completed || status == Failed || status == Cancelled
  }

  /** An entry of `batch_results`: the id of a stored run, or the index of a failed item. */
  datatype Entry = RunEntry(runId: nat) | FailEntry(index: nat)

  /** A stored evaluation run. `attempt` and `item` say which delivery committed it, and for which item. */
  datatype RunRecord = RunRecord(id: nat, attempt: nat, item: nat)

  datatype Counts = Counts(total: nat, completed: nat, failed: nat)

  /** The row of the job in the database. */
  datatype Row = Row(status: Status, counts: Counts, batchResults: Option<seq<Entry>>)

  /** What a database session has loaded of the row. A commit writes a column only if its value differs from the one
      loaded, or if nothing is loaded. */
  datatype Seen = Seen(status: Status, counts: Counts)

  /** Where a delivery of the job stands; each phase names the step it takes next. */
  datatype Phase =
    | Loading | MarkingRow | MarkingRedis | LoadingItems
    | Checking | Evaluating | Committing | Reporting
    | FinishingRow | FinishingRedis
    | CancellingRow | CancellingRedis
    | FailingRow | FailingRedis

  /** The local variables of a delivery. `staged` is the run added to the session but not yet committed, `seen` what
      the session has loaded of the row since its last commit or rollback. */
  datatype Worker = Worker(
    attempt: nat, tries: int, phase: Phase,
    i: nat, completed: nat, failed: nat, results: seq<Entry>, staged: Option<nat>, seen: Option<Seen>)

  datatype Outcome =
    | SkippedCompleted | SkippedCancelled
    | EndedCompleted | EndedCancelled | EndedFailed
    | Reraised(tries: int) | Lost

  /** An API request on the job. Viewing is `get_job`; a cancel request goes on from `Viewed`. `seen` is what was loaded
      from the row, `status` and `counts` what its attributes say after the overlay, which is from Redis progress if
      `overlaid`. */
  datatype Request =
    | RowRead(seen: Seen)
    | StateRead(seen: Seen, status: Status)
    | Viewed(seen: Seen, status: Status, counts: Counts, overlaid: bool)
    | CheckPassed(seen: Seen, counts: Counts)
    | Signalled(seen: Seen, counts: Counts)
    | Closed

  datatype Dispatch = ToEnqueue | ToMarkQueued | Dispatched

  datatype State = State(
    row: Row,
    runs: seq<RunRecord>,
    redisState: Option<Status>,
    progress: Option<Counts>,
    live: Option<Worker>,
    last: Option<Outcome>,
    dispatch: Dispatch,
    requests: map<nat, Request>,
    // History: per delivery the (completed, failed) pair it last committed, all pairs ever committed,
    // and how many item evaluations were started.
    ledger: seq<(nat, nat)>,
    produced: set<(nat, nat)>,
    evaluations: nat)

  datatype Action =
    // submitting
    | Enqueue | MarkQueued | AbandonDispatch
    // the worker
    | Deliver(tries: int) | WorkerStep | Evaluate(result: Option<nat>) | Raise | Crash
    // API requests; `reached` is false when the guarded Redis read fails
    | ReadRow(id: nat) | ReadState(id: nat, reached: bool) | ReadProgress(id: nat, reached: bool)
    | CheckCancellable(id: nat) | Signal(id: nat) | CommitCancel(id: nat) | Abandon(id: nat)
    // Redis expiry
    | ExpireState | ExpireProgress

  function Init(c: Config): State {
    State(Row(Queued, Counts(c.items, 0, 0), None), [], None, None, None, None, ToEnqueue, map[], [], {(0, 0)}, 0)
  }

  predicate IdUsed(runs: seq<RunRecord>, id: nat) {
    exists k :: 0 <= k < |runs| && runs[k].id == id
  }

  predicate At(s: State, id: nat) {
    id in s.requests
  }

  predicate Enabled(c: Config, s: State, a: Action) {
    match a
    case Enqueue => s.dispatch == ToEnqueue
    case MarkQueued => s.dispatch == ToMarkQueued
    case AbandonDispatch => s.dispatch == ToMarkQueued
    case Deliver(_) => s.dispatch != ToEnqueue && s.live.None?
    case WorkerStep => s.live.Some? && s.live.value.phase != Evaluating
    case Evaluate(result) =>
      && s.live.Some? && s.live.value.phase == Evaluating
      && (result.Some? ==> !IdUsed(s.runs, result.value))
    case Raise => s.live.Some?
    case Crash => s.live.Some?
    case ReadRow(id) => id !in s.requests
    case ReadState(id, _) => At(s, id) && s.requests[id].RowRead?
    case ReadProgress(id, _) => At(s, id) && s.requests[id].StateRead?
    case CheckCancellable(id) => At(s, id) && s.requests[id].Viewed?
    case Signal(id) => At(s, id) && s.requests[id].CheckPassed?
    case CommitCancel(id) => At(s, id) && s.requests[id].Signalled?
    case Abandon(id) => At(s, id)
    case ExpireState => s.redisState.Some?
    case ExpireProgress => s.progress.Some?
  }

  function Load(row: Row): Seen {
    Seen(row.status, row.counts)
  }

  /** A column after a commit of a session that loaded `seen` and holds `value`. */
  function Column(current: nat, seen: nat, value: nat): nat {
    if value == seen then current else value
  }

  function WriteCounts(current: Counts, seen: Counts, value: Counts): Counts {
    Counts(Column(current.total, seen.total, value.total), Column(current.completed, seen.completed, value.completed),
           Column(current.failed, seen.failed, value.failed))
  }

  /** The row after the commit of a cancel request that loaded `seen` and overlaid `counts`. */
  function CancelledRow(row: Row, seen: Seen, counts: Counts): Row {
    row.(status := if seen.status == Failed then row.status else Failed,
         counts := WriteCounts(row.counts, seen.counts, counts))
  }

  function Next(c: Config, s: State, a: Action): State
    requires Enabled(c, s, a)
  {
    match a
    case Enqueue => s.(dispatch := ToMarkQueued)
    case MarkQueued => s.(dispatch := Dispatched, redisState := Some(Queued))
    case AbandonDispatch => s.(dispatch := Dispatched)
    case Deliver(tries) =>
      s.(live := Some(Worker(|s.ledger|, tries, Loading, 0, 0, 0, [], None, None)), ledger := s.ledger + [(0, 0)])
    case WorkerStep => StepWorker(c, s, s.live.value)
    case Evaluate(result) => EvaluateItem(s, s.live.value, result)
    case Raise =>
      if s.live.value.phase == FailingRow || s.live.value.phase == FailingRedis then GiveUp(c, s, s.live.value)
      else s.(live := Some(s.live.value.(phase := FailingRow, staged := None)))
    case Crash => s.(live := None, last := Some(Lost))
    case ReadRow(id) => s.(requests := s.requests[id := RowRead(Load(s.row))])
    case ReadState(id, reached) =>
      var RowRead(seen) := s.requests[id];
      var status := if reached && s.redisState.Some? then s.redisState.value else seen.status;
      s.(requests := s.requests[id := StateRead(seen, status)])
    case ReadProgress(id, reached) =>
      var StateRead(seen, status) := s.requests[id];
      s.(requests := s.requests[id :=
        if reached && s.progress.Some? then Viewed(seen, status, s.progress.value, true)
        else Viewed(seen, status, seen.counts, false)])
    case CheckCancellable(id) =>
      var Viewed(seen, status, counts, _) := s.requests[id];
      var refused := Terminal(status) || s.redisState.None? || Terminal(s.redisState.value);
      s.(requests := s.requests[id := if refused then Closed else CheckPassed(seen, counts)])
    case Signal(id) =>
      s.(requests := s.requests[id := Signalled(s.requests[id].seen, s.requests[id].counts)],
         redisState := Some(Cancelled))
    case CommitCancel(id) =>
      s.(requests := s.requests[id := Closed],
         row := CancelledRow(s.row, s.requests[id].seen, s.requests[id].counts))
    case Abandon(id) => s.(requests := s.requests[id := Closed])
    case ExpireState => s.(redisState := None)
    case ExpireProgress => s.(progress := None)
  }

  function End(s: State, outcome: Outcome): State {
    s.(live := None, last := Some(outcome))
  }

  /** The end of the exception handler: re-raise below the limit, otherwise report failure. */
  function GiveUp(c: Config, s: State, w: Worker): State {
    End(s, if w.tries < c.maxRetries then Reraised(w.tries) else EndedFailed)
  }

  function Goto(s: State, w: Worker, phase: Phase): State {
    s.(live := Some(w.(phase := phase)))
  }

  /** The loop head: the next item, or the end of the batch. */
  function NextItem(c: Config, s: State, w: Worker): State {
    Goto(s, w, if w.i < c.items then Checking else FinishingRow)
  }

  /** A new run names the job's project, so the session loads the row if it has not; a failure rolls the session
      back. */
  function EvaluateItem(s: State, w: Worker, result: Option<nat>): State {
    var t := s.(evaluations := s.evaluations + 1);
    match result
    case Some(id) =>
      Goto(t, w.(results := w.results + [RunEntry(id)], completed := w.completed + 1, staged := Some(id),
                 seen := if w.seen.None? then Some(Load(s.row)) else w.seen), Committing)
    case None =>
      Goto(t, w.(results := w.results + [FailEntry(w.i)], failed := w.failed + 1, staged := None, seen := None),
           Committing)
  }

  /** The row's counters after the item's commit. */
  function ItemCounts(current: Counts, w: Worker): Counts {
    if w.seen.None? then current.(completed := w.completed, failed := w.failed)
    else
      current.(completed := Column(current.completed, w.seen.value.counts.completed, w.completed),
               failed := Column(current.failed, w.seen.value.counts.failed, w.failed))
  }

  /** One transaction: the staged run, if any, and the counters. */
  function CommitItem(c: Config, s: State, w: Worker): State
    requires w.attempt < |s.ledger|
  {
    var runs := if w.staged.Some? then s.runs + [RunRecord(w.staged.value, w.attempt, w.i)] else s.runs;
    Goto(s.(row := s.row.(counts := ItemCounts(s.row.counts, w)),
            runs := runs,
            ledger := s.ledger[w.attempt := (w.completed, w.failed)],
            produced := s.produced + {(w.completed, w.failed)}),
         w.(staged := None, seen := None), Reporting)
  }

  /** Every status write but the first goes through as if unconditional: see `JobRow.OtherStatusWritesGoThrough`. */
  function StepWorker(c: Config, s: State, w: Worker): State {
    match w.phase
    case Loading =>
      if s.row.status == Completed then End(s, SkippedCompleted)
      else if s.row.status == Cancelled then End(s, SkippedCancelled)
      else Goto(s, w.(seen := Some(Load(s.row))), MarkingRow)
    case MarkingRow =>
      var already := w.seen.Some? && w.seen.value.status == Running;
      Goto(s.(row := s.row.(status := if already then s.row.status else Running)), w.(seen := None), MarkingRedis)
    case MarkingRedis => Goto(s.(redisState := Some(Running)), w, LoadingItems)
    case LoadingItems => NextItem(c, s, w.(seen := Some(Load(s.row))))
    case Checking => Goto(s, w, if s.redisState == Some(Cancelled) then CancellingRow else Evaluating)
    case Evaluating => s
    case Committing => if w.attempt < |s.ledger| then CommitItem(c, s, w) else s
    case Reporting =>
      NextItem(c, s.(progress := Some(Counts(c.items, w.completed, w.failed))), w.(i := w.i + 1))
    case FinishingRow =>
      Goto(s.(row := s.row.(status := Completed, batchResults := Some(w.results))), w.(seen := None), FinishingRedis)
    case FinishingRedis => End(s.(redisState := Some(Completed)), EndedCompleted)
    case CancellingRow => Goto(s.(row := s.row.(status := Cancelled)), w.(seen := None), CancellingRedis)
    case CancellingRedis => End(s.(redisState := Some(Cancelled)), EndedCancelled)
    case FailingRow => Goto(s.(row := s.row.(status := Failed)), w, FailingRedis)
    case FailingRedis => GiveUp(c, s.(redisState := Some(Failed)), w)
  }

  /** The actions can be taken one after the other from `s`. */
  predicate CanRun(c: Config, s: State, acts: seq<Action>)
    decreases |acts|
  {
    acts == [] || (Enabled(c, s, acts[0]) && CanRun(c, Next(c, s, acts[0]), acts[1..]))
  }

  function Run(c: Config, s: State, acts: seq<Action>): State
    requires CanRun(c, s, acts)
    decreases |acts|
  {
    if acts == [] then s else Run(c, Next(c, s, acts[0]), acts[1..])
  }

  lemma {:induction false} RunSplit(c: Config, s: State, first: seq<Action>, second: seq<Action>)
    requires CanRun(c, s, first) && CanRun(c, Run(c, s, first), second)
    ensures CanRun(c, s, first + second)
    ensures Run(c, s, first + second) == Run(c, Run(c, s, first), second)
    decreases |first|
  {
    if first == [] {
      assert first + second == second;
    } else {
      assert (first + second)[1..] == first[1..] + second;
      RunSplit(c, Next(c, s, first[0]), first[1..], second);
    }
  }

  lemma {:induction false} RunOne(c: Config, s: State, a: Action)
    requires Enabled(c, s, a)
    ensures CanRun(c, s, [a]) && Run(c, s, [a]) == Next(c, s, a)
  {
    assert [a][1..] == [];
  }

  /** Extends a run by one action. */
  lemma Append(c: Config, s: State, acts: seq<Action>, a: Action) returns (longer: seq<Action>)
    requires CanRun(c, s, acts) && Enabled(c, Run(c, s, acts), a)
    ensures longer == acts + [a]
    ensures CanRun(c, s, longer) && Run(c, s, longer) == Next(c, Run(c, s, acts), a)
  {
    RunOne(c, Run(c, s, acts), a);
    RunSplit(c, s, acts, [a]);
    longer := acts + [a];
  }

  /** A run is given by its successive states. */
  lemma {:induction false} RunThrough(c: Config, states: seq<State>, acts: seq<Action>)
    requires |states| == |acts| + 1
    requires forall i :: 0 <= i < |acts| ==>
               Enabled(c, states[i], acts[i]) && Next(c, states[i], acts[i]) == states[i + 1]
    ensures CanRun(c, states[0], acts) && Run(c, states[0], acts) == states[|acts|]
    decreases |acts|
  {
    if acts != [] {
      RunThrough(c, states[1..], acts[1..]);
    }
  }

  /** Some run leads from `s` to `t`, given by the states it passes. */
  ghost predicate Leads(c: Config, s: State, t: State) {
    exists states, acts :: Path(c, states, acts) && states[0] == s && states[|acts|] == t
  }

  ghost predicate Path(c: Config, states: seq<State>, acts: seq<Action>) {
    && |states| == |acts| + 1
    && forall i {:trigger acts[i]} :: 0 <= i < |acts| ==>
         Enabled(c, states[i], acts[i]) && Next(c, states[i], acts[i]) == states[i + 1]
  }

  lemma LeadsNowhere(c: Config, s: State)
    ensures Leads(c, s, s)
  {
    var none: seq<Action> := [];
    assert Path(c, [s], none) && [s][0] == s && [s][|none|] == s;
  }

  lemma LeadsOn(c: Config, s: State, t: State, a: Action)
    requires Leads(c, s, t) && Enabled(c, t, a)
    ensures Leads(c, s, Next(c, t, a))
  {
    var states, acts :| Path(c, states, acts) && states[0] == s && states[|acts|] == t;
    var longer := states + [Next(c, t, a)];
    assert Path(c, longer, acts + [a]);
    assert longer[0] == s && longer[|acts + [a]|] == Next(c, t, a);
  }

  /** `Leads` is reachability by the runs of the protocol. */
  lemma LeadsIsRunning(c: Config, s: State, t: State)
    ensures Leads(c, s, t) <==> exists acts :: CanRun(c, s, acts) && Run(c, s, acts) == t
  {
    if Leads(c, s, t) {
      var states, acts :| Path(c, states, acts) && states[0] == s && states[|acts|] == t;
      RunThrough(c, states, acts);
    }
    if acts :| CanRun(c, s, acts) && Run(c, s, acts) == t {
      RunLeads(c, s, acts);
    }
  }

  lemma {:induction false} RunLeads(c: Config, s: State, acts: seq<Action>)
    requires CanRun(c, s, acts)
    ensures Leads(c, s, Run(c, s, acts))
    decreases |acts|
  {
    if acts == [] {
      LeadsNowhere(c, s);
    } else {
      var n := |acts| - 1;
      assert acts == acts[..n] + [acts[n]];
      PrefixRuns(c, s, acts[..n], acts[n]);
      RunLeads(c, s, acts[..n]);
      LeadsOn(c, s, Run(c, s, acts[..n]), acts[n]);
    }
  }

  lemma {:induction false} PrefixRuns(c: Config, s: State, acts: seq<Action>, a: Action)
    requires CanRun(c, s, acts + [a])
    ensures CanRun(c, s, acts) && Enabled(c, Run(c, s, acts), a)
    ensures Run(c, s, acts + [a]) == Next(c, Run(c, s, acts), a)
    decreases |acts|
  {
    if acts == [] {
      assert ([] + [a])[1..] == [];
    } else {
      assert (acts + [a])[1..] == acts[1..] + [a];
      PrefixRuns(c, Next(c, s, acts[0]), acts[1..], a);
    }
  }
}
