/**
 How long rate-limit counters live: none outlives its last guard, none is cut short, and the admission
 bound of `RateLimiter` is attained.
 */
module CounterLifetimes {
  import opened Options
  import opened RateLimiter

  predicate Loses(a: Action) { a.LoseTtl? }

  predicate Crashes(a: Action) { a.Crash? }

  /** No counter's expiry is stripped from outside. */
  predicate KeepsTtls(acts: seq<Action>) {
    forall i :: 0 <= i < |acts| ==> !Loses(acts[i])
  }

  predicate CrashFree(acts: seq<Action>) {
    forall i :: 0 <= i < |acts| ==> !Crashes(acts[i])
  }

  /** The request counted in generation `gen` of `key` and has its guard (TTL, EXPIRE) still to finish. */
  predicate Guarding(r: Request, key: string, gen: nat) {
    (r.AtTtl? || r.AtExpire?) && r.key == key && r.gen == gen
  }

  /** A request that created the counter with its INCR and has not finished its guard. */
  ghost predicate CreatorGuards(s: State, key: string, gen: nat) {
    exists id :: id in s.requests && Guarding(s.requests[id], key, gen) && s.requests[id].count == 1
  }

  /** That request died between the two. */
  ghost predicate CreatorCrashed(s: State, key: string, gen: nat) {
    exists id :: id in s.requests && s.requests[id] == Crashed(key, Some((gen, 1)))
  }

  /** An answered request leaves the counter it used either replaced or with an expiry. */
  ghost predicate AnswerLeavesMortal(s: State, r: Request) {
    r.AtTtl? || r.AtExpire? || r.Done? ==>
      && r.key in s.counters
      && r.gen <= s.counters[r.key].gen
      && (r.Done? && r.gen == s.counters[r.key].gen ==> s.counters[r.key].deadline.Some?)
  }

  ghost predicate MortalInv(s: State) {
    && (forall id :: id in s.requests ==> AnswerLeavesMortal(s, s.requests[id]))
    && (forall key :: key in s.counters && s.counters[key].deadline.None? ==>
          CreatorGuards(s, key, s.counters[key].gen) || CreatorCrashed(s, key, s.counters[key].gen))
  }

  lemma StepKeepsMortal(c: Config, s: State, a: Action)
    requires MortalInv(s) && Enabled(s, a) && !Loses(a)
    ensures MortalInv(Next(c, s, a))
  {
    var t := Next(c, s, a);
    forall key | key in t.counters && t.counters[key].deadline.None?
      ensures CreatorGuards(t, key, t.counters[key].gen) || CreatorCrashed(t, key, t.counters[key].gen)
    {
      WitnessSurvives(c, s, a, key);
    }
  }

  lemma WitnessSurvives(c: Config, s: State, a: Action, key: string)
    requires MortalInv(s) && Enabled(s, a) && !Loses(a)
    requires var t := Next(c, s, a); key in t.counters && t.counters[key].deadline.None?
    ensures var t := Next(c, s, a);
      CreatorGuards(t, key, t.counters[key].gen) || CreatorCrashed(t, key, t.counters[key].gen)
  {
    var t := Next(c, s, a);
    if key in s.counters && s.counters[key].deadline.None? {
      var gen := s.counters[key].gen;
      assert Live(s.counters, key, s.now);
      assert t.counters[key].gen == gen;
      if CreatorGuards(s, key, gen) {
        var id :| id in s.requests && Guarding(s.requests[id], key, gen) && s.requests[id].count == 1;
        if a == Crash(id) {
          assert t.requests[id] == Crashed(key, Some((gen, 1)));
        } else {
          assert Guarding(t.requests[id], key, gen) && t.requests[id].count == 1;
        }
      } else {
        var id :| id in s.requests && s.requests[id] == Crashed(key, Some((gen, 1)));
        assert t.requests[id] == Crashed(key, Some((gen, 1)));
      }
    } else {
      assert a.Incr? && t.requests[a.id] == AtTtl(key, t.counters[key].gen, 1);
    }
  }

  lemma {:induction false} RunKeepsMortal(c: Config, s: State, acts: seq<Action>)
    requires MortalInv(s) && CanRun(c, s, acts) && KeepsTtls(acts)
    ensures MortalInv(Run(c, s, acts))
    decreases |acts|
  {
    if acts != [] {
      StepKeepsMortal(c, s, acts[0]);
      RunKeepsMortal(c, Next(c, s, acts[0]), acts[1..]);
    }
  }

  /** However requests interleave and crash, once a request has been answered, the counter it counted in
      has an expiry or has been replaced: a later guard repairs what a crashed request left behind. */
  lemma AnswersLeaveMortalCounters(c: Config, start: int, acts: seq<Action>, id: nat)
    requires CanRun(c, Init(start), acts) && KeepsTtls(acts)
    ensures var s := Run(c, Init(start), acts);
      id in s.requests && s.requests[id].Done? ==>
        var Done(key, gen, _) := s.requests[id];
        && key in s.counters
        && (s.counters[key].gen == gen ==> s.counters[key].deadline.Some?)
  {
    RunKeepsMortal(c, Init(start), acts);
    var s := Run(c, Init(start), acts);
    assert id in s.requests ==> AnswerLeavesMortal(s, s.requests[id]);
  }

  lemma {:induction false} NobodyCrashed(c: Config, s: State, acts: seq<Action>)
    requires CanRun(c, s, acts) && CrashFree(acts)
    requires forall id :: id in s.requests ==> !s.requests[id].Crashed?
    ensures forall id :: id in Run(c, s, acts).requests ==> !Run(c, s, acts).requests[id].Crashed?
    decreases |acts|
  {
    if acts != [] {
      var t := Next(c, s, acts[0]);
      assert !Crashes(acts[0]);
      NobodyCrashed(c, t, acts[1..]);
    }
  }

  /** A counter with no expiry is one whose creating request sits between its INCR and its EXPIRE, or crashed there. */
  lemma NoImmortalCounters(c: Config, start: int, acts: seq<Action>, key: string)
    requires CanRun(c, Init(start), acts) && KeepsTtls(acts)
    ensures var s := Run(c, Init(start), acts);
      key in s.counters && s.counters[key].deadline.None? ==>
        || CreatorGuards(s, key, s.counters[key].gen)
        || (CreatorCrashed(s, key, s.counters[key].gen) && !CrashFree(acts))
  {
    RunKeepsMortal(c, Init(start), acts);
    if CrashFree(acts) {
      NobodyCrashed(c, Init(start), acts);
    }
  }

  /** No command shortens the life of a live counter, however late its EXPIRE arrives: the counter keeps its
      generation and its deadline never moves back (a lost expiry is a later deadline). */
  lemma DeadlinesNeverShorten(c: Config, start: int, acts: seq<Action>, a: Action, key: string)
    requires 0 < c.window && CanRun(c, Init(start), acts)
    requires Enabled(Run(c, Init(start), acts), a)
    ensures var s := Run(c, Init(start), acts); var t := Next(c, s, a);
      Live(s.counters, key, s.now) ==>
        && key in t.counters && t.counters[key].gen == s.counters[key].gen
        && s.counters[key].count <= t.counters[key].count
        && (s.counters[key].deadline.Some? && t.counters[key].deadline.Some? ==>
              s.counters[key].deadline.value <= t.counters[key].deadline.value)
        && (t.counters[key].deadline.None? ==> s.counters[key].deadline.None? || a == LoseTtl(key))
  {
    RunKeepsTiming(c, Init(start), acts);
    var s := Run(c, Init(start), acts);
    assert key in s.counters ==> CounterOk(c, s, key);
  }

  // ---- The bound is attained ----

  lemma {:induction false} RunSplit(c: Config, s: State, first: seq<Action>, second: seq<Action>)
    requires CanRun(c, s, first) && CanRun(c, Run(c, s, first), second)
    ensures CanRun(c, s, first + second)
    ensures Run(c, s, first + second) == Run(c, Run(c, s, first), second)
    decreases |first|
  {
    if first == [] {
      assert first + second == second;
    } else {
      assert (first + second)[1..] == first[1..] + second;
      RunSplit(c, Next(c, s, first[0]), first[1..], second);
    }
  }

  /** A run is given by its successive states. */
  lemma {:induction false} RunThrough(c: Config, states: seq<State>, acts: seq<Action>)
    requires |states| == |acts| + 1
    requires forall i :: 0 <= i < |acts| ==> Enabled(states[i], acts[i]) && Next(c, states[i], acts[i]) == states[i + 1]
    ensures CanRun(c, states[0], acts) && Run(c, states[0], acts) == states[|acts|]
    decreases |acts|
  {
    if acts != [] {
      RunThrough(c, states[1..], acts[1..]);
    }
  }

  /** Counters without expiry do arise: an INCR that comes after the counter its SET lost to has expired creates one,
      and it stays if the request dies before its EXPIRE; and an expiry can be lost from outside. */
  lemma ImmortalCounters(c: Config, start: int, key: string) returns (crashed: seq<Action>, lost: seq<Action>)
    requires 0 < c.window
    ensures CanRun(c, Init(start), crashed) && KeepsTtls(crashed)
    ensures var s := Run(c, Init(start), crashed);
      && Live(s.counters, key, s.now) && s.counters[key].deadline == None
      && s.requests.Keys == {0, 1} && s.requests[0].Done? && s.requests[1].Crashed?
    ensures CanRun(c, Init(start), lost) && CrashFree(lost)
    ensures var s := Run(c, Init(start), lost);
      Live(s.counters, key, s.now) && s.counters[key].deadline == None && s.requests.Keys == {0} && s.requests[0].Done?
  {
    var s := Init(start);
    var s1 := Next(c, s, Arrive(0, key));
    var s2 := Next(c, s1, SetNx(0));
    lost := [Arrive(0, key), SetNx(0), LoseTtl(key)];
    RunThrough(c, [s, s1, s2, Next(c, s2, LoseTtl(key))], lost);
    var first := [Arrive(0, key), SetNx(0)];
    RunThrough(c, [s, s1, s2], first);
    var rest := Orphan(c, s2, key, 1);
    RunSplit(c, s, first, rest);
    crashed := first + rest;
  }

  /** A request loses its SET to a counter that expires, and dies after its INCR. */
  lemma Orphan(c: Config, s: State, key: string, id: nat) returns (acts: seq<Action>)
    requires 0 < c.window && id !in s.requests
    requires Live(s.counters, key, s.now) && s.counters[key].deadline == Some(s.now + c.window)
    ensures CanRun(c, s, acts) && KeepsTtls(acts)
    ensures var t := Run(c, s, acts);
      && Live(t.counters, key, t.now) && t.counters[key].deadline == None
      && id in t.requests && t.requests == s.requests[id := t.requests[id]] && t.requests[id].Crashed?
  {
    acts := [Arrive(id, key), SetNx(id), Tick(c.window + 1), Incr(id), Crash(id)];
    var s1 := Next(c, s, acts[0]);
    var s2 := Next(c, s1, acts[1]);
    var s3 := Next(c, s2, acts[2]);
    var s4 := Next(c, s3, acts[3]);
    var s5 := Next(c, s4, acts[4]);
    RunThrough(c, [s, s1, s2, s3, s4, s5], acts);
  }

  /** All ids from `id` on are unused. */
  ghost predicate FreshFrom(s: State, id: nat) {
    forall k :: k in s.requests ==> k < id
  }

  /** One request meeting a live counter is counted at once. */
  lemma OneMore(c: Config, s: State, key: string, id: nat) returns (acts: seq<Action>)
    requires Live(s.counters, key, s.now) && FreshFrom(s, id)
    ensures CanRun(c, s, acts)
    ensures var t := Run(c, s, acts);
      && t.now == s.now && FreshFrom(t, id + 1)
      && t.counters == s.counters[key := Bumped(s.counters[key])]
      && t.log == s.log + [Decision(c, key, Bumped(s.counters[key]), s.now)]
  {
    var s1 := Next(c, s, Arrive(id, key));
    var s2 := Next(c, s1, SetNx(id));
    var s3 := Next(c, s2, Incr(id));
    acts := [Arrive(id, key), SetNx(id), Incr(id)];
    assert acts[1..] == [SetNx(id), Incr(id)] && acts[1..][1..] == [Incr(id)] && acts[1..][1..][1..] == [];
    assert CanRun(c, s3, []) && CanRun(c, s2, [Incr(id)]) && CanRun(c, s1, [SetNx(id), Incr(id)]);
    assert Run(c, s, acts) == Run(c, s1, acts[1..]) == Run(c, s2, acts[1..][1..]) == s3;
  }

  /** `n` requests in a row, all counted by the same live counter and all admitted, within one instant. */
  lemma {:induction false} Burst(c: Config, s: State, key: string, id: nat, n: nat, from: int)
    returns (acts: seq<Action>)
    requires Live(s.counters, key, s.now) && FreshFrom(s, id)
    requires s.counters[key].count + n <= c.limit && from <= s.now
    ensures CanRun(c, s, acts)
    ensures var t := Run(c, s, acts);
      && t.now == s.now && FreshFrom(t, id + n)
      && key in t.counters && t.counters[key].deadline == s.counters[key].deadline
      && AdmittedWithin(t.log, key, from, s.now) == AdmittedWithin(s.log, key, from, s.now) + n
      && (forall i :: 0 <= i < |t.log| ==> (i < |s.log| && t.log[i] == s.log[i]) || t.log[i].time == s.now)
    decreases n
  {
    acts := [];
    if n > 0 {
      var head := OneMore(c, s, key, id);
      var t := Run(c, s, head);
      assert t.log[..|t.log| - 1] == s.log;
      var tail := Burst(c, t, key, id + 1, n - 1, from);
      RunSplit(c, s, head, tail);
      acts := head + tail;
    }
  }

  /** The first request of a generation wins the SET. */
  lemma Opening(c: Config, s: State, key: string, id: nat) returns (acts: seq<Action>)
    requires 0 < c.window && !Live(s.counters, key, s.now) && FreshFrom(s, id) && 1 <= c.limit
    ensures CanRun(c, s, acts)
    ensures var t := Run(c, s, acts);
      && t.now == s.now && FreshFrom(t, id + 1)
      && key in t.counters && t.counters[key].deadline == Some(s.now + c.window) && t.counters[key].count == 1
      && |t.log| == |s.log| + 1 && t.log[..|s.log|] == s.log
      && t.log[|s.log|].key == key && t.log[|s.log|].time == s.now && t.log[|s.log|].admitted
  {
    var s1 := Next(c, s, Arrive(id, key));
    var s2 := Next(c, s1, SetNx(id));
    acts := [Arrive(id, key), SetNx(id)];
    assert acts[1..] == [SetNx(id)] && acts[1..][1..] == [];
    assert CanRun(c, s2, []) && CanRun(c, s1, [SetNx(id)]);
    assert Run(c, s, acts) == Run(c, s1, acts[1..]) == s2;
  }

  lemma {:induction false} LaterEnd(log: seq<Event>, key: string, from: int, to: int, later: int)
    requires to <= later && forall i :: 0 <= i < |log| ==> log[i].time <= to
    ensures AdmittedWithin(log, key, from, later) == AdmittedWithin(log, key, from, to)
  {
    if log != [] {
      LaterEnd(log[..|log| - 1], key, from, to, later);
    }
  }

  /** A whole generation's budget spent at one instant. */
  lemma SpendGeneration(c: Config, s: State, key: string, id: nat, from: int) returns (acts: seq<Action>)
    requires 0 < c.window && 1 <= c.limit && !Live(s.counters, key, s.now) && FreshFrom(s, id) && from <= s.now
    requires forall i :: 0 <= i < |s.log| ==> s.log[i].time <= s.now
    ensures CanRun(c, s, acts)
    ensures var t := Run(c, s, acts);
      && t.now == s.now && FreshFrom(t, id + c.limit)
      && key in t.counters && t.counters[key].deadline == Some(s.now + c.window)
      && AdmittedWithin(t.log, key, from, s.now) == AdmittedWithin(s.log, key, from, s.now) + c.limit
      && (forall i :: 0 <= i < |t.log| ==> t.log[i].time <= s.now)
  {
    var head := Opening(c, s, key, id);
    var t := Run(c, s, head);
    assert t.log[..|t.log| - 1] == s.log;
    var tail := Burst(c, t, key, id + 1, c.limit - 1, from);
    RunSplit(c, s, head, tail);
    acts := head + tail;
  }

  /** Wait. */
  lemma Wait(c: Config, s: State, acts: seq<Action>, elapsed: int) returns (longer: seq<Action>)
    requires CanRun(c, s, acts) && 0 < elapsed
    ensures CanRun(c, s, longer) && Run(c, s, longer) == Run(c, s, acts).(now := Run(c, s, acts).now + elapsed)
  {
    var t := Run(c, s, acts);
    var wait := [Tick(elapsed)];
    var u := Next(c, t, Tick(elapsed));
    assert CanRun(c, u, wait[1..]) && Run(c, t, wait) == Run(c, u, wait[1..]) == u;
    RunSplit(c, s, acts, wait);
    longer := acts + wait;
  }

  lemma {:induction false} NoneWithin(log: seq<Event>, key: string, from: int, to: int)
    requires forall i :: 0 <= i < |log| ==> log[i].time < from
    ensures AdmittedWithin(log, key, from, to) == 0
  {
    if log != [] {
      NoneWithin(log[..|log| - 1], key, from, to);
    }
  }

  /** One request opens a counter, the rest of its budget is spent in its last millisecond; then it expires. */
  lemma SpendLate(c: Config, start: int, key: string) returns (acts: seq<Action>)
    requires 0 < c.window && 1 <= c.limit
    ensures CanRun(c, Init(start), acts)
    ensures var t := Run(c, Init(start), acts);
      && t.now == start + c.window + 1 && FreshFrom(t, c.limit) && !Live(t.counters, key, t.now)
      && AdmittedWithin(t.log, key, start + c.window, t.now) == c.limit - 1
      && (forall i :: 0 <= i < |t.log| ==> t.log[i].time <= t.now)
  {
    var s0 := Init(start);
    var late := start + c.window;
    acts := Opening(c, s0, key, 0);
    acts := Wait(c, s0, acts, c.window);
    var s1 := Run(c, s0, acts);
    NoneWithin(s1.log, key, late, late);
    var burst := Burst(c, s1, key, 1, c.limit - 1, late);
    RunSplit(c, s0, acts, burst);
    acts := acts + burst;
    var s2 := Run(c, s0, acts);
    LaterEnd(s2.log, key, late, late, late + 1);
    acts := Wait(c, s0, acts, 1);
  }

  /** For every positive limit and window some run admits twice the limit less one within two milliseconds. */
  lemma WindowBoundAttained(c: Config, start: int, key: string) returns (acts: seq<Action>)
    requires 0 < c.window && 1 <= c.limit
    ensures CanRun(c, Init(start), acts)
    ensures var late := start + c.window;
      AdmittedWithin(Run(c, Init(start), acts).log, key, late, late + 1) == 2 * c.limit - 1
  {
    var first := SpendLate(c, start, key);
    var s := Run(c, Init(start), first);
    var second := SpendGeneration(c, s, key, c.limit, start + c.window);
    RunSplit(c, Init(start), first, second);
    acts := first + second;
  }
}
