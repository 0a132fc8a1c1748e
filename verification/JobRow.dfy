/** Which statuses the row can have while a delivery stands at a given phase. */
module JobRow {
  import opened Options
  import opened Jobs

  /** A delivery that loads such a row is skipped. */
  predicate Skips(status: Status) {
    status == Completed || status == Cancelled
  }

  ghost predicate RowInv(s: State) {
    && (s.dispatch == ToEnqueue ==> s.live.None? && s.ledger == [] && !Skips(s.row.status))
    && (s.live.Some? || s.last.Some? ==> s.ledger != [])
    && (s.live.Some? ==>
          var w := s.live.value;
          && (w.seen.Some? ==>
                && !Skips(w.seen.value.status)
                && (w.seen.value.status == Failed ==> s.row.status == Failed))
          && match w.phase
             case Loading | FailingRow => true
             case FinishingRedis => s.row.status != Cancelled
             case CancellingRedis => s.row.status != Completed
             case FailingRedis => s.row.status == Failed
             case Committing => !Skips(s.row.status) && (w.staged.None? <==> w.seen.None?)
             case _ => !Skips(s.row.status))
  }

  lemma WorkerKeepsRow(c: Config, s: State)
    requires RowInv(s) && Enabled(c, s, WorkerStep)
    ensures RowInv(Next(c, s, WorkerStep))
  {
  }

  lemma OthersKeepRow(c: Config, s: State, a: Action)
    requires RowInv(s) && Enabled(c, s, a) && !a.WorkerStep?
    ensures RowInv(Next(c, s, a))
  {
  }

  lemma StepKeepsRow(c: Config, s: State, a: Action)
    requires RowInv(s) && Enabled(c, s, a)
    ensures RowInv(Next(c, s, a))
  {
    if a.WorkerStep? {
      WorkerKeepsRow(c, s);
    } else {
      OthersKeepRow(c, s, a);
    }
  }

  lemma {:induction false} RunKeepsRow(c: Config, s: State, acts: seq<Action>)
    requires RowInv(s) && CanRun(c, s, acts)
    ensures RowInv(Run(c, s, acts))
    decreases |acts|
  {
    if acts != [] {
      StepKeepsRow(c, s, acts[0]);
      RunKeepsRow(c, Next(c, s, acts[0]), acts[1..]);
    }
  }

  /** The column test that the first status write of a delivery is subject to would change none of the later ones: a
      session past the skip checks has not loaded `completed` or `cancelled`, and one whose handler has loaded `failed`
      works on a failed row. */
  lemma OtherStatusWritesGoThrough(c: Config, acts: seq<Action>)
    requires CanRun(c, Init(c), acts)
    ensures var s := Run(c, Init(c), acts);
      s.live.Some? && s.live.value.seen.Some? ==>
        var seen := s.live.value.seen.value.status;
        && seen != Completed && seen != Cancelled
        && (seen == Failed ==> s.row.status == Failed)
  {
    RunKeepsRow(c, Init(c), acts);
  }

  /** A failed item rolls its session back, so its commit writes both counters whatever the row says meanwhile. The
      commit of an evaluated one leaves a counter alone that has the value its session loaded, also if the row has
      another one by now; that is how a cancel's counters can stay. */
  lemma ItemCommitWrites(c: Config, acts: seq<Action>)
    requires CanRun(c, Init(c), acts)
    ensures var s := Run(c, Init(c), acts);
      s.live.Some? && s.live.value.phase == Committing && s.live.value.attempt < |s.ledger| ==>
        var w := s.live.value; var counts := Next(c, s, WorkerStep).row.counts;
        if w.staged.None? then
          counts == Counts(s.row.counts.total, w.completed, w.failed)
        else
          && w.seen.Some? && counts.total == s.row.counts.total
          && var seen := w.seen.value.counts;
             && (w.completed != seen.completed ==> counts.completed == w.completed)
             && (w.completed == seen.completed ==> counts.completed == s.row.counts.completed)
             && (w.failed != seen.failed ==> counts.failed == w.failed)
             && (w.failed == seen.failed ==> counts.failed == s.row.counts.failed)
  {
    RunKeepsRow(c, Init(c), acts);
  }
}
