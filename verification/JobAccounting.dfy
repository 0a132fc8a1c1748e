/** What is stored for a job agrees with what its deliveries committed, in every run. */
module JobAccounting {
  import opened Options
  import opened Jobs

  function RunCount(results: seq<Entry>): nat {
    if results == [] then 0
    else RunCount(results[..|results| - 1]) + (if results[|results| - 1].RunEntry? then 1 else 0)
  }

  function FailCount(results: seq<Entry>): nat {
    if results == [] then 0
    else FailCount(results[..|results| - 1]) + (if results[|results| - 1].FailEntry? then 1 else 0)
  }

  /** How many stored runs a delivery committed. */
  function RunsOf(runs: seq<RunRecord>, attempt: nat): nat {
    if runs == [] then 0
    else RunsOf(runs[..|runs| - 1], attempt) + (if runs[|runs| - 1].attempt == attempt then 1 else 0)
  }

  function TotalCommitted(ledger: seq<(nat, nat)>): nat {
    if ledger == [] then 0 else TotalCommitted(ledger[..|ledger| - 1]) + ledger[|ledger| - 1].0
  }

  ghost predicate Stored(runs: seq<RunRecord>, record: RunRecord) {
    exists k :: 0 <= k < |runs| && runs[k] == record
  }

  /** The entry at `index` names that index, or a run the delivery stored for that item. */
  ghost predicate EntryOk(runs: seq<RunRecord>, attempt: nat, entry: Entry, index: nat) {
    match entry
    case FailEntry(at) => at == index
    case RunEntry(id) => Stored(runs, RunRecord(id, attempt, index))
  }

  /** `results` lists one outcome per item, in order, all backed by the store. */
  ghost predicate EntriesOk(runs: seq<RunRecord>, attempt: nat, results: seq<Entry>) {
    forall k :: 0 <= k < |results| ==> EntryOk(runs, attempt, results[k], k)
  }

  ghost predicate IdsDistinct(runs: seq<RunRecord>) {
    forall j, k :: 0 <= j < k < |runs| ==> runs[j].id != runs[k].id
  }

  /** The local variables of a delivery agree with each other and with what it has committed. */
  ghost predicate WorkerOk(c: Config, s: State, w: Worker) {
    && w.attempt + 1 == |s.ledger|
    && w.completed == RunCount(w.results) && w.failed == FailCount(w.results)
    && |w.results| == w.completed + w.failed
    && match w.phase
       case Loading | MarkingRow | MarkingRedis | LoadingItems =>
         w.i == 0 && w.results == [] && s.ledger[w.attempt] == (0, 0)
       case Checking | Evaluating =>
         && w.i < c.items && |w.results| == w.i
         && EntriesOk(s.runs, w.attempt, w.results) && s.ledger[w.attempt] == (w.completed, w.failed)
       case Committing =>
         && w.i < c.items && |w.results| == w.i + 1
         && EntriesOk(s.runs, w.attempt, w.results[..w.i])
         && (match w.results[w.i]
             case RunEntry(id) =>
               w.staged == Some(id) && !IdUsed(s.runs, id) && s.ledger[w.attempt] == (w.completed - 1, w.failed)
             case FailEntry(at) =>
               at == w.i && w.staged == None && s.ledger[w.attempt] == (w.completed, w.failed - 1))
       case Reporting =>
         && w.i < c.items && |w.results| == w.i + 1
         && EntriesOk(s.runs, w.attempt, w.results) && s.ledger[w.attempt] == (w.completed, w.failed)
       case FinishingRow | FinishingRedis =>
         && |w.results| == c.items
         && EntriesOk(s.runs, w.attempt, w.results) && s.ledger[w.attempt] == (w.completed, w.failed)
       case _ => true
  }

  /** What a stored `batch_results` says: one entry per item, in order, of one delivery, whose committed
      counters are the numbers of entries of either kind. */
  ghost predicate BatchOk(c: Config, s: State, results: seq<Entry>, attempt: nat) {
    && |results| == c.items
    && attempt < |s.ledger|
    && EntriesOk(s.runs, attempt, results)
    && s.ledger[attempt] == (RunCount(results), FailCount(results))
    && RunCount(results) + FailCount(results) == c.items
  }

  /** The pair is one that an item commit produced, or (0, 0). */
  ghost predicate CountsOk(c: Config, s: State, counts: Counts) {
    counts.total == c.items && (counts.completed, counts.failed) in s.produced
  }

  ghost predicate CompletedOnce(produced: set<(nat, nat)>, n: nat) {
    exists p :: p in produced && p.0 == n
  }

  ghost predicate FailedOnce(produced: set<(nat, nat)>, n: nat) {
    exists p :: p in produced && p.1 == n
  }

  /** Each counter is one that an item commit produced, or 0, but perhaps not the same commit. */
  ghost predicate ColumnsOk(c: Config, s: State, counts: Counts) {
    counts.total == c.items && CompletedOnce(s.produced, counts.completed) && FailedOnce(s.produced, counts.failed)
  }

  ghost predicate RequestOk(c: Config, s: State, r: Request) {
    match r
    case Closed => true
    case RowRead(seen) => ColumnsOk(c, s, seen.counts)
    case StateRead(seen, _) => ColumnsOk(c, s, seen.counts)
    case Viewed(seen, _, counts, overlaid) =>
      ColumnsOk(c, s, seen.counts) && ColumnsOk(c, s, counts) && (overlaid ==> CountsOk(c, s, counts))
    case CheckPassed(seen, counts) => ColumnsOk(c, s, seen.counts) && ColumnsOk(c, s, counts)
    case Signalled(seen, counts) => ColumnsOk(c, s, seen.counts) && ColumnsOk(c, s, counts)
  }

  /** The store holds exactly what the deliveries' committed counters say. */
  ghost predicate HistoryOk(c: Config, s: State) {
    && |s.runs| == TotalCommitted(s.ledger)
    && (forall a: nat :: a < |s.ledger| ==> RunsOf(s.runs, a) == s.ledger[a].0)
    && (forall k :: 0 <= k < |s.runs| ==> s.runs[k].attempt < |s.ledger|)
    && IdsDistinct(s.runs)
    && (0, 0) in s.produced
    && (forall p :: p in s.produced ==> p.0 + p.1 <= c.items)
    && (forall a :: 0 <= a < |s.ledger| ==> s.ledger[a] in s.produced)
  }

  /** As long as there is one delivery, its counters only grow. */
  ghost predicate FirstDelivery(s: State) {
    && (s.ledger == [] ==> s.produced == {(0, 0)})
    && (|s.ledger| == 1 ==> forall p :: p in s.produced ==> p.0 <= s.ledger[0].0 && p.1 <= s.ledger[0].1)
  }

  /** Whatever shows counters shows committed values; what is in Redis is a committed pair. */
  ghost predicate ViewsOk(c: Config, s: State) {
    && ColumnsOk(c, s, s.row.counts)
    && (s.progress.Some? ==> CountsOk(c, s, s.progress.value))
    && (forall id :: id in s.requests ==> RequestOk(c, s, s.requests[id]))
  }

  ghost predicate StoredOk(c: Config, s: State) {
    && (s.row.status == Completed ==> s.row.batchResults.Some?)
    && (s.row.batchResults.Some? ==> exists a :: BatchOk(c, s, s.row.batchResults.value, a))
  }

  ghost predicate LiveOk(c: Config, s: State) {
    s.live.Some? ==> WorkerOk(c, s, s.live.value)
  }

  ghost predicate Inv(c: Config, s: State) {
    HistoryOk(c, s) && FirstDelivery(s) && ViewsOk(c, s) && StoredOk(c, s) && LiveOk(c, s)
  }

  // ---- Small facts about the history ----

  lemma {:induction false} LedgerGrows(ledger: seq<(nat, nat)>, pair: (nat, nat))
    ensures TotalCommitted(ledger + [pair]) == TotalCommitted(ledger) + pair.0
  {
    assert (ledger + [pair])[..|ledger|] == ledger;
  }

  lemma LedgerLast(ledger: seq<(nat, nat)>, pair: (nat, nat))
    requires ledger != []
    ensures TotalCommitted(ledger[|ledger| - 1 := pair]) + ledger[|ledger| - 1].0 == TotalCommitted(ledger) + pair.0
  {
    assert ledger[|ledger| - 1 := pair][..|ledger| - 1] == ledger[..|ledger| - 1];
  }

  lemma {:induction false} RunsGrow(runs: seq<RunRecord>, record: RunRecord, attempt: nat)
    ensures RunsOf(runs + [record], attempt) == RunsOf(runs, attempt) + (if record.attempt == attempt then 1 else 0)
  {
    assert (runs + [record])[..|runs|] == runs;
  }

  lemma {:induction false} NoRunsYet(runs: seq<RunRecord>, attempt: nat)
    requires forall k :: 0 <= k < |runs| ==> runs[k].attempt < attempt
    ensures RunsOf(runs, attempt) == 0
  {
    if runs != [] {
      NoRunsYet(runs[..|runs| - 1], attempt);
    }
  }

  lemma ResultsGrow(results: seq<Entry>, entry: Entry)
    ensures RunCount(results + [entry]) == RunCount(results) + (if entry.RunEntry? then 1 else 0)
    ensures FailCount(results + [entry]) == FailCount(results) + (if entry.FailEntry? then 1 else 0)
  {
    assert (results + [entry])[..|results|] == results;
  }

  lemma EntriesSurvive(runs: seq<RunRecord>, more: seq<RunRecord>, attempt: nat, results: seq<Entry>)
    requires EntriesOk(runs, attempt, results)
    ensures EntriesOk(runs + more, attempt, results)
  {
    forall k | 0 <= k < |results| ensures EntryOk(runs + more, attempt, results[k], k) {
      assert EntryOk(runs, attempt, results[k], k);
      if results[k].RunEntry? {
        var j :| 0 <= j < |runs| && runs[j] == RunRecord(results[k].runId, attempt, k);
        assert (runs + more)[j] == runs[j];
      }
    }
  }

  // ---- Every step keeps the invariant ----

  /** Nothing stored or committed changes. */
  predicate SameHistory(s: State, t: State) {
    && t.runs == s.runs && t.ledger == s.ledger && t.produced == s.produced
    && t.row.batchResults == s.row.batchResults
    && (t.row.status == Completed ==> s.row.status == Completed)
  }

  lemma SameHistoryKeeps(c: Config, s: State, t: State)
    requires HistoryOk(c, s) && FirstDelivery(s) && StoredOk(c, s) && SameHistory(s, t)
    ensures HistoryOk(c, t) && FirstDelivery(t) && StoredOk(c, t)
  {
    forall results, a | BatchOk(c, s, results, a) ensures BatchOk(c, t, results, a) {}
  }

  /** A worker that has one more result, not yet committed. */
  lemma OneMoreResult(c: Config, s: State, w: Worker, v: Worker, entry: Entry)
    requires WorkerOk(c, s, w) && w.phase == Evaluating
    requires v.attempt == w.attempt && v.i == w.i && v.phase == Committing && v.results == w.results + [entry]
    requires match entry
      case RunEntry(id) =>
        !IdUsed(s.runs, id) && v.staged == Some(id) && v.completed == w.completed + 1 && v.failed == w.failed
      case FailEntry(at) =>
        at == w.i && v.staged == None && v.completed == w.completed && v.failed == w.failed + 1
    ensures WorkerOk(c, s, v)
  {
    ResultsGrow(w.results, entry);
    assert v.results[..w.i] == w.results && v.results[w.i] == entry;
  }

  lemma SameWorkerOk(c: Config, s: State, t: State, w: Worker)
    requires WorkerOk(c, s, w) && t.runs == s.runs && t.ledger == s.ledger
    ensures WorkerOk(c, t, w)
  {
  }

  lemma EvaluateKeeps(c: Config, s: State, result: Option<nat>)
    requires LiveOk(c, s) && Enabled(c, s, Evaluate(result))
    ensures var t := Next(c, s, Evaluate(result)); LiveOk(c, t) && SameHistory(s, t)
  {
    var w := s.live.value;
    var t := Next(c, s, Evaluate(result));
    OneMoreResult(c, s, w, t.live.value, if result.Some? then RunEntry(result.value) else FailEntry(w.i));
    SameWorkerOk(c, s, t, t.live.value);
  }

  lemma CommitKeepsHistory(c: Config, s: State)
    requires HistoryOk(c, s) && LiveOk(c, s) && s.live.Some? && s.live.value.phase == Committing
    ensures HistoryOk(c, Next(c, s, WorkerStep))
  {
    var w := s.live.value;
    LedgerLast(s.ledger, (w.completed, w.failed));
    CommitCountsRuns(c, s);
    CommitKeepsIds(c, s);
  }

  lemma CommitKeepsIds(c: Config, s: State)
    requires IdsDistinct(s.runs) && LiveOk(c, s) && s.live.Some? && s.live.value.phase == Committing
    ensures IdsDistinct(Next(c, s, WorkerStep).runs)
  {
  }

  lemma CommitCountsRuns(c: Config, s: State)
    requires HistoryOk(c, s) && LiveOk(c, s) && s.live.Some? && s.live.value.phase == Committing
    ensures var t := Next(c, s, WorkerStep); forall a: nat :: a < |t.ledger| ==> RunsOf(t.runs, a) == t.ledger[a].0
  {
    var w := s.live.value;
    var t := Next(c, s, WorkerStep);
    if w.staged.Some? {
      var record := RunRecord(w.staged.value, w.attempt, w.i);
      forall a: nat | a < |t.ledger| ensures RunsOf(t.runs, a) == t.ledger[a].0 {
        RunsGrow(s.runs, record, a);
      }
    }
  }

  lemma CommitKeepsFirst(c: Config, s: State)
    requires FirstDelivery(s) && LiveOk(c, s) && s.live.Some? && s.live.value.phase == Committing
    ensures FirstDelivery(Next(c, s, WorkerStep))
  {
    var w := s.live.value;
    assert w.results[w.i].RunEntry? || w.results[w.i].FailEntry?;
  }

  lemma ColumnsSurvive(c: Config, s: State, t: State, counts: Counts)
    requires ColumnsOk(c, s, counts) && s.produced <= t.produced
    ensures ColumnsOk(c, t, counts)
  {
    var p :| p in s.produced && p.0 == counts.completed;
    var q :| q in s.produced && q.1 == counts.failed;
    assert p in t.produced && q in t.produced;
  }

  lemma RequestSurvives(c: Config, s: State, t: State, r: Request)
    requires RequestOk(c, s, r) && s.produced <= t.produced
    ensures RequestOk(c, t, r)
  {
    if !r.Closed? {
      ColumnsSurvive(c, s, t, r.seen.counts);
    }
    if r.Viewed? || r.CheckPassed? || r.Signalled? {
      ColumnsSurvive(c, s, t, r.counts);
    }
  }

  lemma CommitKeepsViews(c: Config, s: State)
    requires ViewsOk(c, s) && LiveOk(c, s) && s.live.Some? && s.live.value.phase == Committing
    ensures ViewsOk(c, Next(c, s, WorkerStep))
  {
    var w := s.live.value;
    var t := Next(c, s, WorkerStep);
    ColumnsSurvive(c, s, t, s.row.counts);
    assert (w.completed, w.failed) in t.produced;
    assert CompletedOnce(t.produced, w.completed) && FailedOnce(t.produced, w.failed);
    forall id | id in t.requests ensures RequestOk(c, t, t.requests[id]) {
      RequestSurvives(c, s, t, s.requests[id]);
    }
  }

  lemma CommitKeepsWorker(c: Config, s: State)
    requires LiveOk(c, s) && s.live.Some? && s.live.value.phase == Committing
    ensures LiveOk(c, Next(c, s, WorkerStep))
  {
    var w := s.live.value;
    var t := Next(c, s, WorkerStep);
    if w.staged.Some? {
      var record := RunRecord(w.staged.value, w.attempt, w.i);
      assert t.runs == s.runs + [record] && t.runs[|s.runs|] == record;
      EntriesSurvive(s.runs, [record], w.attempt, w.results[..w.i]);
    }
    forall k | 0 <= k < |w.results| ensures EntryOk(t.runs, w.attempt, w.results[k], k) {
      assert k < w.i ==> w.results[k] == w.results[..w.i][k];
      assert k < w.i ==> EntryOk(t.runs, w.attempt, w.results[..w.i][k], k);
    }
  }

  /** A later commit only touches the ledger of a delivery that has not listed its results yet. */
  lemma CommitKeepsStored(c: Config, s: State)
    requires StoredOk(c, s) && LiveOk(c, s) && s.live.Some? && s.live.value.phase == Committing
    ensures StoredOk(c, Next(c, s, WorkerStep))
  {
    var w := s.live.value;
    var t := Next(c, s, WorkerStep);
    if s.row.batchResults.Some? {
      var results := s.row.batchResults.value;
      var a :| BatchOk(c, s, results, a);
      assert a != w.attempt;
      assert t.runs == s.runs + t.runs[|s.runs|..];
      EntriesSurvive(s.runs, t.runs[|s.runs|..], a, results);
      assert BatchOk(c, t, results, a);
    }
  }

  lemma DeliverKeeps(c: Config, s: State, tries: int)
    requires HistoryOk(c, s) && FirstDelivery(s) && StoredOk(c, s) && Enabled(c, s, Deliver(tries))
    ensures var t := Next(c, s, Deliver(tries));
      HistoryOk(c, t) && FirstDelivery(t) && StoredOk(c, t) && LiveOk(c, t)
  {
    var t := Next(c, s, Deliver(tries));
    LedgerGrows(s.ledger, (0, 0));
    NoRunsYet(s.runs, |s.ledger|);
    forall results, a | BatchOk(c, s, results, a) ensures BatchOk(c, t, results, a) {}
  }

  lemma FinishKeeps(c: Config, s: State)
    requires Inv(c, s) && s.live.Some? && s.live.value.phase == FinishingRow
    ensures Inv(c, Next(c, s, WorkerStep))
  {
    var w := s.live.value;
    assert BatchOk(c, Next(c, s, WorkerStep), w.results, w.attempt);
  }

  /** The worker's phases that commit no item and store no results. */
  predicate QuietPhase(phase: Phase) {
    phase != Evaluating && phase != Committing && phase != FinishingRow
  }

  lemma ReportingKeepsWorker(c: Config, s: State)
    requires LiveOk(c, s) && s.live.Some? && s.live.value.phase == Reporting
    ensures var t := Next(c, s, WorkerStep); SameHistory(s, t) && LiveOk(c, t)
  {
    var w := s.live.value;
    var v := w.(i := w.i + 1, phase := if w.i + 1 < c.items then Checking else FinishingRow);
    assert Next(c, s, WorkerStep).live == Some(v);
  }

  lemma StartKeepsWorker(c: Config, s: State)
    requires LiveOk(c, s) && s.live.Some? && s.live.value.phase in {Loading, MarkingRow, MarkingRedis, LoadingItems}
    ensures var t := Next(c, s, WorkerStep); SameHistory(s, t) && LiveOk(c, t)
  {
  }

  lemma QuietPhaseKeepsWorker(c: Config, s: State)
    requires LiveOk(c, s) && s.live.Some? && QuietPhase(s.live.value.phase)
    ensures var t := Next(c, s, WorkerStep); SameHistory(s, t) && LiveOk(c, t)
  {
    var w := s.live.value;
    if w.phase == Reporting {
      ReportingKeepsWorker(c, s);
    } else if w.phase in {Loading, MarkingRow, MarkingRedis, LoadingItems} {
      StartKeepsWorker(c, s);
    }
  }

  lemma ReportedPair(c: Config, s: State)
    requires LiveOk(c, s) && HistoryOk(c, s) && s.live.Some? && s.live.value.phase == Reporting
    ensures (s.live.value.completed, s.live.value.failed) in s.produced
  {
    assert s.ledger[s.live.value.attempt] in s.produced;
  }

  lemma QuietPhaseKeepsViews(c: Config, s: State)
    requires ViewsOk(c, s) && s.live.Some? && QuietPhase(s.live.value.phase)
    requires s.live.value.phase == Reporting ==> (s.live.value.completed, s.live.value.failed) in s.produced
    ensures ViewsOk(c, Next(c, s, WorkerStep))
  {
    var t := Next(c, s, WorkerStep);
    assert t.requests == s.requests && t.produced == s.produced && t.row.counts == s.row.counts;
    forall id | id in t.requests ensures RequestOk(c, t, t.requests[id]) {
      RequestSurvives(c, s, t, s.requests[id]);
    }
    ColumnsSurvive(c, s, t, s.row.counts);
  }

  lemma WorkerStepKeeps(c: Config, s: State)
    requires Inv(c, s) && Enabled(c, s, WorkerStep)
    ensures Inv(c, Next(c, s, WorkerStep))
  {
    if s.live.value.phase == Committing {
      CommitKeepsHistory(c, s);
      CommitKeepsFirst(c, s);
      CommitKeepsViews(c, s);
      CommitKeepsWorker(c, s);
      CommitKeepsStored(c, s);
    } else if s.live.value.phase == FinishingRow {
      FinishKeeps(c, s);
    } else {
      QuietPhaseKeepsWorker(c, s);
      if s.live.value.phase == Reporting {
        ReportedPair(c, s);
      }
      QuietPhaseKeepsViews(c, s);
      SameHistoryKeeps(c, s, Next(c, s, WorkerStep));
    }
  }

  /** Views pass on what they read. */
  lemma ReadKeeps(c: Config, s: State, a: Action)
    requires ViewsOk(c, s) && Enabled(c, s, a)
    requires a.ReadRow? || a.ReadState? || a.ReadProgress? || a.CheckCancellable?
    ensures ViewsOk(c, Next(c, s, a))
  {
    var t := Next(c, s, a);
    if !a.ReadRow? {
      assert RequestOk(c, s, s.requests[a.id]);
    }
    if s.progress.Some? {
      var p := (s.progress.value.completed, s.progress.value.failed);
      assert p in t.produced;
      assert ColumnsOk(c, t, s.progress.value);
    }
    ColumnsSurvive(c, s, t, s.row.counts);
    forall id | id in t.requests && id != a.id ensures RequestOk(c, t, t.requests[id]) {
      RequestSurvives(c, s, t, s.requests[id]);
    }
  }

  /** A cancel's commit leaves every counter one that was committed. */
  lemma CancelKeeps(c: Config, s: State, id: nat)
    requires ViewsOk(c, s) && Enabled(c, s, CommitCancel(id))
    ensures ViewsOk(c, Next(c, s, CommitCancel(id)))
  {
    var t := Next(c, s, CommitCancel(id));
    var r := s.requests[id];
    assert RequestOk(c, s, r);
    ColumnsSurvive(c, s, t, s.row.counts);
    ColumnsSurvive(c, s, t, r.counts);
    forall k | k in t.requests && k != id ensures RequestOk(c, t, t.requests[k]) {
      RequestSurvives(c, s, t, s.requests[k]);
    }
  }

  /** The other actions outside the worker leave row and counters alone. */
  lemma RestKeeps(c: Config, s: State, a: Action)
    requires ViewsOk(c, s) && Enabled(c, s, a)
    requires a.Enqueue? || a.MarkQueued? || a.AbandonDispatch? || a.Raise? || a.Crash? || a.Signal? || a.Abandon?
          || a.ExpireState? || a.ExpireProgress? || a.Evaluate?
    ensures ViewsOk(c, Next(c, s, a))
  {
    var t := Next(c, s, a);
    ColumnsSurvive(c, s, t, s.row.counts);
    forall id | id in t.requests ensures RequestOk(c, t, t.requests[id]) {
      RequestSurvives(c, s, t, s.requests[id]);
    }
  }

  lemma RaiseStoresNothing(c: Config, s: State)
    requires LiveOk(c, s) && Enabled(c, s, Raise)
    ensures var t := Next(c, s, Raise); SameHistory(s, t) && LiveOk(c, t)
  {
  }

  /** The actions that leave the delivery as it is. */
  predicate Aside(a: Action) {
    !a.Deliver? && !a.WorkerStep? && !a.Evaluate? && !a.Raise? && !a.Crash?
  }

  lemma AsideStoresNothing(c: Config, s: State, a: Action)
    requires Enabled(c, s, a) && Aside(a)
    ensures var t := Next(c, s, a); SameHistory(s, t) && t.live == s.live
  {
  }

  lemma OutsideStoresNothing(c: Config, s: State, a: Action)
    requires LiveOk(c, s) && Enabled(c, s, a)
    requires !a.Deliver? && !a.WorkerStep? && !a.Evaluate?
    ensures var t := Next(c, s, a); SameHistory(s, t) && LiveOk(c, t)
  {
    if a.Raise? {
      RaiseStoresNothing(c, s);
    } else if Aside(a) {
      AsideStoresNothing(c, s, a);
      if s.live.Some? {
        SameWorkerOk(c, s, Next(c, s, a), s.live.value);
      }
    }
  }

  /** API requests and expiry store nothing; they only pass on counts they read. */
  lemma OutsideKeeps(c: Config, s: State, a: Action)
    requires LiveOk(c, s) && ViewsOk(c, s) && Enabled(c, s, a)
    requires !a.Deliver? && !a.WorkerStep? && !a.Evaluate?
    ensures var t := Next(c, s, a); SameHistory(s, t) && LiveOk(c, t) && ViewsOk(c, t)
  {
    OutsideStoresNothing(c, s, a);
    match a
    case ReadRow(_) => ReadKeeps(c, s, a);
    case ReadState(_, _) => ReadKeeps(c, s, a);
    case ReadProgress(_, _) => ReadKeeps(c, s, a);
    case CheckCancellable(_) => ReadKeeps(c, s, a);
    case CommitCancel(id) => CancelKeeps(c, s, id);
    case _ => RestKeeps(c, s, a);
  }

  lemma StepKeeps(c: Config, s: State, a: Action)
    requires Inv(c, s) && Enabled(c, s, a)
    ensures Inv(c, Next(c, s, a))
  {
    if a.WorkerStep? {
      WorkerStepKeeps(c, s);
    } else if a.Deliver? {
      DeliverKeeps(c, s, a.tries);
    } else {
      if a.Evaluate? {
        EvaluateKeeps(c, s, a.result);
        RestKeeps(c, s, a);
      } else {
        OutsideKeeps(c, s, a);
      }
      SameHistoryKeeps(c, s, Next(c, s, a));
    }
  }

  lemma {:induction false} RunKeeps(c: Config, s: State, acts: seq<Action>)
    requires Inv(c, s) && CanRun(c, s, acts)
    ensures Inv(c, Run(c, s, acts))
    decreases |acts|
  {
    if acts != [] {
      StepKeeps(c, s, acts[0]);
      RunKeeps(c, Next(c, s, acts[0]), acts[1..]);
    }
  }

  // ---- Main results ----

  /** Exact accounting: under any schedule of crashes, failures, retries and cancels, every delivery stored exactly
      the runs its last committed counter says, and together they are all the runs stored for the job. */
  lemma ExactAccounting(c: Config, acts: seq<Action>)
    requires CanRun(c, Init(c), acts)
    ensures var s := Run(c, Init(c), acts);
      && |s.runs| == TotalCommitted(s.ledger)
      && (forall a: nat :: a < |s.ledger| ==>
            RunsOf(s.runs, a) == s.ledger[a].0 && s.ledger[a].0 + s.ledger[a].1 <= c.items)
      && IdsDistinct(s.runs)
  {
    RunKeeps(c, Init(c), acts);
  }

  /** Redis progress, and every view it is overlaid on, show a (completed, failed) pair that some item commit produced,
      so completed + failed never exceeds the total. The row's counters, and views of them, are each a value that some
      item commit produced; they add up to at most the total as long as there was at most one delivery. */
  lemma ViewsAreCommittedPairs(c: Config, acts: seq<Action>, id: nat)
    requires CanRun(c, Init(c), acts)
    ensures var s := Run(c, Init(c), acts);
      && (s.progress.Some? ==> CountsOk(c, s, s.progress.value) && AddsUp(s.progress.value))
      && ColumnsOk(c, s, s.row.counts) && Bounded(c, s.row.counts) && (|s.ledger| <= 1 ==> AddsUp(s.row.counts))
      && (id in s.requests && s.requests[id].Viewed? ==>
            var Viewed(_, _, counts, overlaid) := s.requests[id];
            && (overlaid ==> CountsOk(c, s, counts) && AddsUp(counts))
            && ColumnsOk(c, s, counts) && Bounded(c, counts) && (|s.ledger| <= 1 ==> AddsUp(counts)))
  {
    RunKeeps(c, Init(c), acts);
    var s := Run(c, Init(c), acts);
    ColumnsBound(c, s, s.row.counts);
    if id in s.requests && s.requests[id].Viewed? {
      assert RequestOk(c, s, s.requests[id]);
      ColumnsBound(c, s, s.requests[id].counts);
    }
  }

  predicate AddsUp(counts: Counts) {
    counts.completed + counts.failed <= counts.total
  }

  predicate Bounded(c: Config, counts: Counts) {
    counts.total == c.items && counts.completed <= c.items && counts.failed <= c.items
  }

  lemma ColumnsBound(c: Config, s: State, counts: Counts)
    requires HistoryOk(c, s) && FirstDelivery(s) && ColumnsOk(c, s, counts)
    ensures Bounded(c, counts) && (|s.ledger| <= 1 ==> AddsUp(counts))
  {
    var p :| p in s.produced && p.0 == counts.completed;
    var q :| q in s.produced && q.1 == counts.failed;
    assert |s.ledger| == 1 ==> s.ledger[0] in s.produced;
  }

  /** Runs named by two entries of one delivery are different runs. */
  lemma EntriesNameDistinctRuns(runs: seq<RunRecord>, attempt: nat, results: seq<Entry>, j: nat, k: nat)
    requires IdsDistinct(runs) && EntriesOk(runs, attempt, results)
    requires j < k < |results| && results[j].RunEntry? && results[k].RunEntry?
    ensures results[j].runId != results[k].runId
  {
    assert EntryOk(runs, attempt, results[j], j) && EntryOk(runs, attempt, results[k], k);
  }

  /** A COMPLETED row carries batch results, and whenever a row carries batch results they list one entry per item in
      order: failed entries carry their own index, completed entries carry pairwise distinct ids of runs stored by one
      delivery for that item, and that delivery's committed counters are the numbers of entries of either kind. */
  lemma StoredBatchIsComplete(c: Config, acts: seq<Action>) returns (attempt: nat)
    requires CanRun(c, Init(c), acts)
    ensures var s := Run(c, Init(c), acts);
      && (s.row.status == Completed ==> s.row.batchResults.Some?)
      && (s.row.batchResults.Some? ==>
        var results := s.row.batchResults.value;
        && BatchOk(c, s, results, attempt)
        && (forall j, k :: 0 <= j < k < |results| && results[j].RunEntry? && results[k].RunEntry? ==>
              results[j].runId != results[k].runId))
  {
    RunKeeps(c, Init(c), acts);
    var s := Run(c, Init(c), acts);
    attempt := 0;
    if s.row.batchResults.Some? {
      var results := s.row.batchResults.value;
      attempt :| BatchOk(c, s, results, attempt);
      forall j, k | 0 <= j < k < |results| && results[j].RunEntry? && results[k].RunEntry?
        ensures results[j].runId != results[k].runId
      {
        EntriesNameDistinctRuns(s.runs, attempt, results, j, k);
      }
    }
  }

  lemma {:induction false} CommittedElsewhere(ledger: seq<(nat, nat)>, attempt: nat)
    requires attempt < |ledger|
    ensures ledger[attempt].0 <= TotalCommitted(ledger)
    ensures TotalCommitted(ledger) == ledger[attempt].0 <==>
            forall b :: 0 <= b < |ledger| && b != attempt ==> ledger[b].0 == 0
  {
    var n := |ledger| - 1;
    var rest := ledger[..n];
    assert forall b :: 0 <= b < n ==> rest[b] == ledger[b];
    if attempt < n {
      CommittedElsewhere(rest, attempt);
    } else {
      NothingCommitted(rest);
    }
  }

  lemma {:induction false} NothingCommitted(ledger: seq<(nat, nat)>)
    ensures TotalCommitted(ledger) == 0 <==> forall b :: 0 <= b < |ledger| ==> ledger[b].0 == 0
  {
    if ledger != [] {
      var n := |ledger| - 1;
      NothingCommitted(ledger[..n]);
      assert forall b :: 0 <= b < n ==> ledger[..n][b] == ledger[b];
    }
  }

  /** A retry starts over without removing earlier runs: a completed batch accounts for all stored runs of the job
      exactly when no other delivery of the job had committed a run. */
  lemma RetriesDuplicateRunsIff(c: Config, acts: seq<Action>, results: seq<Entry>, attempt: nat)
    requires CanRun(c, Init(c), acts)
    requires var s := Run(c, Init(c), acts); s.row.batchResults == Some(results) && BatchOk(c, s, results, attempt)
    ensures var s := Run(c, Init(c), acts);
      && RunCount(results) <= |s.runs|
      && (|s.runs| == RunCount(results) <==>
            forall b: nat :: b < |s.ledger| && b != attempt ==> RunsOf(s.runs, b) == 0)
  {
    RunKeeps(c, Init(c), acts);
    var s := Run(c, Init(c), acts);
    CommittedElsewhere(s.ledger, attempt);
    assert s.ledger[attempt].0 == RunCount(results) && |s.runs| == TotalCommitted(s.ledger);
    if |s.runs| == RunCount(results) {
      forall b: nat | b < |s.ledger| && b != attempt ensures RunsOf(s.runs, b) == 0 {
        assert s.ledger[b].0 == 0;
      }
    } else {
      var b :| 0 <= b < |s.ledger| && b != attempt && s.ledger[b].0 != 0;
      assert RunsOf(s.runs, b) == s.ledger[b].0;
    }
  }
}
