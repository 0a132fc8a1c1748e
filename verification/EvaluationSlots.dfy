/**
 Evaluation slots of one API process: a lazily created bounded semaphore (double-checked under a lock),
 acquired with a timeout and released in a `finally`, under any interleaving of any number of threads.
 */
module EvaluationSlots {
  import opened Options

  /** How many evaluations may run at once. */
  function Slots(maxConcurrency: int): (n: nat)
    ensures 1 <= n && (1 <= maxConcurrency ==> n == maxConcurrency)
  {
    if 1 < maxConcurrency then maxConcurrency else 1
  }

  /** Where a thread stands; each phase names what it does next. */
  datatype Phase =
    | FirstCheck                     // read the global without the lock
    | AwaitLock | SecondCheck | Constructing | Publishing(made: nat) | Unlocking
    | Returning                      // read the global again
    | Acquiring(sem: nat)
    | Inside(sem: nat)               // the guarded evaluation
    | Releasing(sem: nat, raised: bool)
    | Refused | Finished(raised: bool) | OverReleased

  /** A thread with the permits it has taken and given back. */
  datatype Thread = Thread(phase: Phase, taken: nat, returned: nat)

  /** `sems[k]` is the number of free permits of the k-th semaphore object ever made. */
  datatype State = State(global: Option<nat>, lock: Option<nat>, sems: seq<nat>, threads: seq<Thread>)

  datatype Action = Spawn | Step(tid: nat) | TimeOut(tid: nat) | BodyRaises(tid: nat)

  const INIT := State(None, None, [], [])

  predicate Enabled(s: State, a: Action) {
    match a
    case Spawn => true
    case Step(tid) =>
      tid < |s.threads| &&
      (match s.threads[tid].phase
       case AwaitLock => s.lock.None?
       case Returning => s.global.Some?
       case Acquiring(sem) => sem < |s.sems| && 0 < s.sems[sem]
       case Releasing(sem, _) => sem < |s.sems|
       case Refused | Finished(_) | OverReleased => false
       case _ => true)
    case TimeOut(tid) =>
      tid < |s.threads| && s.threads[tid].phase.Acquiring?
      && s.threads[tid].phase.sem < |s.sems| && s.sems[s.threads[tid].phase.sem] == 0
    case BodyRaises(tid) => tid < |s.threads| && s.threads[tid].phase.Inside?
  }

  function Goto(s: State, tid: nat, phase: Phase): State
    requires tid < |s.threads|
  {
    s.(threads := s.threads[tid := s.threads[tid].(phase := phase)])
  }

  function Next(slots: nat, s: State, a: Action): State
    requires Enabled(s, a)
  {
    match a
    case Spawn => s.(threads := s.threads + [Thread(FirstCheck, 0, 0)])
    case TimeOut(tid) => Goto(s, tid, Refused)
    case BodyRaises(tid) => Goto(s, tid, Releasing(s.threads[tid].phase.sem, true))
    case Step(tid) =>
      match s.threads[tid].phase
      case FirstCheck => Goto(s, tid, if s.global.None? then AwaitLock else Returning)
      case AwaitLock => Goto(s.(lock := Some(tid)), tid, SecondCheck)
      case SecondCheck => Goto(s, tid, if s.global.None? then Constructing else Unlocking)
      case Constructing => Goto(s.(sems := s.sems + [slots]), tid, Publishing(|s.sems|))
      case Publishing(made) => Goto(s.(global := Some(made)), tid, Unlocking)
      case Unlocking => Goto(s.(lock := None), tid, Returning)
      case Returning => Goto(s, tid, Acquiring(s.global.value))
      case Acquiring(sem) =>
        s.(sems := s.sems[sem := s.sems[sem] - 1],
           threads := s.threads[tid := Thread(Inside(sem), s.threads[tid].taken + 1, s.threads[tid].returned)])
      case Inside(sem) => Goto(s, tid, Releasing(sem, false))
      case Releasing(sem, raised) =>
        // a bounded semaphore refuses to go above its initial value
        if s.sems[sem] == slots then Goto(s, tid, OverReleased)
        else
          var th := s.threads[tid];
          s.(sems := s.sems[sem := s.sems[sem] + 1],
             threads := s.threads[tid := Thread(Finished(raised), th.taken, th.returned + 1)])
      case _ => s
  }

  predicate CanRun(slots: nat, s: State, acts: seq<Action>)
    decreases |acts|
  {
    acts == [] || (Enabled(s, acts[0]) && CanRun(slots, Next(slots, s, acts[0]), acts[1..]))
  }

  function Run(slots: nat, s: State, acts: seq<Action>): State
    requires CanRun(slots, s, acts)
    decreases |acts|
  {
    if acts == [] then s else Run(slots, Next(slots, s, acts[0]), acts[1..])
  }

  predicate Holds(p: Phase) {
    p.Inside? || p.Releasing?
  }

  /** Evaluations in progress: threads holding a permit. */
  function InProgress(threads: seq<Thread>): nat {
    if threads == [] then 0
    else InProgress(threads[..|threads| - 1]) + (if Holds(threads[|threads| - 1].phase) then 1 else 0)
  }

  predicate Critical(p: Phase) {
    p.SecondCheck? || p.Constructing? || p.Publishing? || p.Unlocking?
  }

  predicate Ended(p: Phase) {
    p.Refused? || p.Finished?
  }

  /** What a thread's phase says about the globals and about its own permits. */
  ghost predicate ThreadOk(s: State, tid: nat)
    requires tid < |s.threads|
  {
    var th := s.threads[tid];
    && (Critical(th.phase) <==> s.lock == Some(tid))
    && (th.phase.Constructing? ==> s.sems == [])
    && (th.phase.Publishing? ==> th.phase.made == 0 && |s.sems| == 1 && s.global == None)
    && (th.phase.Unlocking? || th.phase.Returning? ==> s.global == Some(0))
    && (th.phase.Acquiring? || Holds(th.phase) ==> th.phase.sem == 0 && s.global == Some(0))
    && !th.phase.OverReleased?
    && th.taken == (if Holds(th.phase) || th.phase.Finished? then 1 else 0)
    && th.returned == (if th.phase.Finished? then 1 else 0)
  }

  ghost predicate SomePublishing(s: State) {
    exists tid :: 0 <= tid < |s.threads| && s.threads[tid].phase.Publishing?
  }

  ghost predicate Inv(slots: nat, s: State) {
    && (forall tid: nat :: tid < |s.threads| ==> ThreadOk(s, tid))
    && |s.sems| <= 1
    && (s.global.Some? ==> s.global.value == 0 && |s.sems| == 1)
    && (|s.sems| == 1 && s.global.None? ==> SomePublishing(s))
    && (s.lock.Some? ==> s.lock.value < |s.threads|)
    && (|s.sems| == 1 ==> s.sems[0] + InProgress(s.threads) == slots)
    && (s.sems == [] ==> InProgress(s.threads) == 0)
  }

  lemma {:induction false} OneThreadChanges(threads: seq<Thread>, tid: nat, th: Thread)
    requires tid < |threads|
    ensures InProgress(threads[tid := th]) + (if Holds(threads[tid].phase) then 1 else 0)
            == InProgress(threads) + (if Holds(th.phase) then 1 else 0)
  {
    var n := |threads| - 1;
    if tid == n {
      assert threads[tid := th][..n] == threads[..n];
    } else {
      assert threads[tid := th][..n] == threads[..n][tid := th];
      OneThreadChanges(threads[..n], tid, th);
    }
  }

  lemma {:induction false} HolderCounts(threads: seq<Thread>, tid: nat)
    requires tid < |threads| && Holds(threads[tid].phase)
    ensures 1 <= InProgress(threads)
  {
    var n := |threads| - 1;
    if tid < n {
      HolderCounts(threads[..n], tid);
    }
  }

  /** A made but unpublished semaphore belongs to the thread in the critical section. */
  lemma PublisherHasLock(slots: nat, s: State, tid: nat)
    requires Inv(slots, s) && tid < |s.threads| && Critical(s.threads[tid].phase)
    requires |s.sems| == 1 && s.global.None?
    ensures s.threads[tid].phase.Publishing?
  {
    assert ThreadOk(s, tid);
    var k :| 0 <= k < |s.threads| && s.threads[k].phase.Publishing?;
    assert ThreadOk(s, k);
  }

  lemma MoverOk(slots: nat, s: State, a: Action)
    requires 1 <= slots && Inv(slots, s) && Enabled(s, a) && a != Spawn
    ensures ThreadOk(Next(slots, s, a), a.tid)
  {
    assert ThreadOk(s, a.tid);
    if s.threads[a.tid].phase.SecondCheck? && |s.sems| == 1 && s.global.None? {
      PublisherHasLock(slots, s, a.tid);
    }
    if s.threads[a.tid].phase.Releasing? {
      HolderCounts(s.threads, a.tid);
    }
  }

  lemma OtherOk(slots: nat, s: State, a: Action, k: nat)
    requires 1 <= slots && Inv(slots, s) && Enabled(s, a) && a != Spawn
    requires k < |s.threads| && k != a.tid
    ensures ThreadOk(Next(slots, s, a), k)
  {
    assert ThreadOk(s, a.tid) && ThreadOk(s, k);
  }

  /** Permits and evaluations in progress move together. */
  lemma BalanceKeeps(slots: nat, s: State, a: Action)
    requires 1 <= slots && Inv(slots, s) && Enabled(s, a) && a != Spawn
    ensures var t := Next(slots, s, a);
      && |t.sems| <= 1
      && (|t.sems| == 1 ==> t.sems[0] + InProgress(t.threads) == slots)
      && (t.sems == [] ==> InProgress(t.threads) == 0)
  {
    var tid := a.tid;
    assert ThreadOk(s, tid);
    if s.threads[tid].phase.Releasing? {
      HolderCounts(s.threads, tid);
    }
    OneThreadChanges(s.threads, tid, Next(slots, s, a).threads[tid]);
  }

  /** The global is set by the thread that made the semaphore. */
  lemma PublishingKeeps(slots: nat, s: State, a: Action)
    requires 1 <= slots && Inv(slots, s) && Enabled(s, a) && a != Spawn
    ensures var t := Next(slots, s, a);
      && (t.global.Some? ==> t.global.value == 0 && |t.sems| == 1)
      && (|t.sems| == 1 && t.global.None? ==> SomePublishing(t))
      && (t.lock.Some? ==> t.lock.value < |t.threads|)
  {
    var t := Next(slots, s, a);
    assert ThreadOk(s, a.tid);
    if s.threads[a.tid].phase.Constructing? {
      assert t.threads[a.tid].phase.Publishing?;
    } else if |s.sems| == 1 && s.global.None? {
      var k :| 0 <= k < |s.threads| && s.threads[k].phase.Publishing?;
      assert k != a.tid ==> t.threads[k] == s.threads[k];
    }
  }

  lemma SpawnKeeps(slots: nat, s: State)
    requires 1 <= slots && Inv(slots, s)
    ensures Inv(slots, Next(slots, s, Spawn))
  {
    var t := Next(slots, s, Spawn);
    assert t.threads[..|s.threads|] == s.threads;
    if SomePublishing(s) {
      var k :| 0 <= k < |s.threads| && s.threads[k].phase.Publishing?;
      assert t.threads[k] == s.threads[k];
    }
    forall k: nat | k < |t.threads| ensures ThreadOk(t, k) {
      assert k < |s.threads| ==> ThreadOk(s, k);
    }
  }

  lemma StepKeeps(slots: nat, s: State, a: Action)
    requires 1 <= slots && Inv(slots, s) && Enabled(s, a)
    ensures Inv(slots, Next(slots, s, a))
  {
    if a == Spawn {
      SpawnKeeps(slots, s);
    } else {
      forall k: nat | k < |s.threads| ensures ThreadOk(Next(slots, s, a), k) {
        if k == a.tid {
          MoverOk(slots, s, a);
        } else {
          OtherOk(slots, s, a, k);
        }
      }
      BalanceKeeps(slots, s, a);
      PublishingKeeps(slots, s, a);
    }
  }

  lemma {:induction false} RunKeeps(slots: nat, s: State, acts: seq<Action>)
    requires 1 <= slots && Inv(slots, s) && CanRun(slots, s, acts)
    ensures Inv(slots, Run(slots, s, acts))
    decreases |acts|
  {
    if acts != [] {
      StepKeeps(slots, s, acts[0]);
      RunKeeps(slots, Next(slots, s, acts[0]), acts[1..]);
    }
  }

  /** Under every interleaving: at most one semaphore is ever made and every thread that has one has that one; free
      permits and evaluations in progress always add up to `max(1, EVAL_MAX_CONCURRENCY)`; no release overflows the
      bounded semaphore; every thread that ended gave back exactly what it took, whether or not it raised. */
  lemma SlotSafety(maxConcurrency: int, acts: seq<Action>)
    requires CanRun(Slots(maxConcurrency), INIT, acts)
    ensures var s := Run(Slots(maxConcurrency), INIT, acts);
      && |s.sems| <= 1
      && (s.sems != [] ==> s.sems[0] + InProgress(s.threads) == Slots(maxConcurrency))
      && InProgress(s.threads) <= Slots(maxConcurrency)
      && forall tid :: 0 <= tid < |s.threads| ==>
           var th := s.threads[tid];
           && !th.phase.OverReleased?
           && (th.phase.Acquiring? || Holds(th.phase) ==> s.global == Some(th.phase.sem))
           && (Ended(th.phase) ==> th.taken == th.returned == if th.phase.Finished? then 1 else 0)
  {
    RunKeeps(Slots(maxConcurrency), INIT, acts);
    var s := Run(Slots(maxConcurrency), INIT, acts);
    forall tid | 0 <= tid < |s.threads|
      ensures var th := s.threads[tid];
           && !th.phase.OverReleased?
           && (th.phase.Acquiring? || Holds(th.phase) ==> s.global == Some(th.phase.sem))
           && (Ended(th.phase) ==> th.taken == th.returned == if th.phase.Finished? then 1 else 0)
    {
      assert ThreadOk(s, tid);
    }
  }

  /** A request is refused only while every slot is taken, and once all threads have ended every slot is free. */
  lemma RefusedOnlyWhenFull(maxConcurrency: int, acts: seq<Action>, tid: nat)
    requires CanRun(Slots(maxConcurrency), INIT, acts)
    ensures var s := Run(Slots(maxConcurrency), INIT, acts);
      && (Enabled(s, TimeOut(tid)) ==> InProgress(s.threads) == Slots(maxConcurrency))
      && ((forall k :: 0 <= k < |s.threads| ==> Ended(s.threads[k].phase)) && s.sems != [] ==>
            s.sems == [Slots(maxConcurrency)])
  {
    RunKeeps(Slots(maxConcurrency), INIT, acts);
    var s := Run(Slots(maxConcurrency), INIT, acts);
    if tid < |s.threads| {
      assert ThreadOk(s, tid);
    }
    if forall k :: 0 <= k < |s.threads| ==> Ended(s.threads[k].phase) {
      NoneInProgress(s.threads);
    }
  }

  lemma {:induction false} NoneInProgress(threads: seq<Thread>)
    requires forall k :: 0 <= k < |threads| ==> Ended(threads[k].phase)
    ensures InProgress(threads) == 0
  {
    if threads != [] {
      NoneInProgress(threads[..|threads| - 1]);
    }
  }

  /** A thread that has not ended can move, or be timed out, or waits for a lock whose holder can move. */
  lemma NoDeadlock(maxConcurrency: int, acts: seq<Action>, tid: nat)
    requires CanRun(Slots(maxConcurrency), INIT, acts)
    requires var s := Run(Slots(maxConcurrency), INIT, acts);
      tid < |s.threads| && !Ended(s.threads[tid].phase)
    ensures var s := Run(Slots(maxConcurrency), INIT, acts);
      || Enabled(s, Step(tid)) || Enabled(s, TimeOut(tid))
      || (s.threads[tid].phase.AwaitLock? && s.lock.Some? && Enabled(s, Step(s.lock.value)))
  {
    RunKeeps(Slots(maxConcurrency), INIT, acts);
    var s := Run(Slots(maxConcurrency), INIT, acts);
    assert ThreadOk(s, tid);
    if s.lock.Some? {
      assert ThreadOk(s, s.lock.value);
    }
  }
}
