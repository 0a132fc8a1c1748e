/**
 The fixed-window rate limiter as a protocol: any number of requests, in any number of processes,
 interleave their Redis commands (SET NX EX, INCR, TTL, EXPIRE) on shared counters while the clock
 runs and counters expire. Times are in milliseconds.
 */
module RateLimiter {
  import opened Options

  /** What every process agrees on: the window (in milliseconds) and the number of requests allowed. */
  datatype Config = Config(window: int, limit: int)

  /** A Redis counter. `gen` numbers the counters a key has had; `birth` is when this one was created. */
  datatype Counter = Counter(count: nat, deadline: Option<int>, gen: nat, birth: int)

  /** A request, by the command it issues next. `gen` and `count` are what its deciding command saw; a
      request that dies between its INCR and its EXPIRE leaves the two in `counted`. */
  datatype Request =
    | AtSet(key: string)
    | AtIncr(key: string)
    | AtTtl(key: string, gen: nat, count: nat)
    | AtExpire(key: string, gen: nat, count: nat)
    | Done(key: string, gen: nat, count: nat)
    | Crashed(key: string, counted: Option<(nat, nat)>)

  /** One deciding command: a SET that won or an INCR. It fixes the request's answer. */
  datatype Event = Event(key: string, time: int, gen: nat, birth: int, count: nat, admitted: bool)

  datatype State = State(
    now: int,
    counters: map<string, Counter>,
    requests: map<nat, Request>,
    log: seq<Event>)

  datatype Action =
    | Arrive(id: nat, key: string)
    | SetNx(id: nat)
    | Incr(id: nat)
    | Ttl(id: nat)
    | Expire(id: nat)
    | Tick(elapsed: int)
    | Crash(id: nat)
    | LoseTtl(key: string)

  /** Redis still serves a key in the millisecond of its deadline. */
  predicate Expired(counter: Counter, now: int) {
    counter.deadline.Some? && counter.deadline.value < now
  }

  predicate Live(counters: map<string, Counter>, key: string, now: int) {
    key in counters && !Expired(counters[key], now)
  }

  /** The counter a command creates under a key that has no live one. */
  function Created(counters: map<string, Counter>, key: string, deadline: Option<int>, now: int): Counter {
    Counter(1, deadline, if key in counters then counters[key].gen + 1 else 0, now)
  }

  function Bumped(counter: Counter): Counter {
    counter.(count := counter.count + 1)
  }

  function Decision(c: Config, key: string, counter: Counter, now: int): Event {
    Event(key, now, counter.gen, counter.birth, counter.count, counter.count <= c.limit)
  }

  predicate Enabled(s: State, a: Action) {
    match a
    case Arrive(id, _) => id !in s.requests
    case SetNx(id) => id in s.requests && s.requests[id].AtSet?
    case Incr(id) => id in s.requests && s.requests[id].AtIncr?
    case Ttl(id) => id in s.requests && s.requests[id].AtTtl?
    case Expire(id) => id in s.requests && s.requests[id].AtExpire?
    case Tick(elapsed) => 0 < elapsed
    case Crash(id) => id in s.requests && !s.requests[id].Done?
    case LoseTtl(key) => Live(s.counters, key, s.now)
  }

  /** The generation and count a request has from its INCR, as long as it is unanswered. */
  function Counted(r: Request): Option<(nat, nat)> {
    match r
    case AtTtl(_, gen, count) => Some((gen, count))
    case AtExpire(_, gen, count) => Some((gen, count))
    case Crashed(_, counted) => counted
    case _ => None
  }

  function Next(c: Config, s: State, a: Action): State
    requires Enabled(s, a)
  {
    match a
    case Arrive(id, key) => s.(requests := s.requests[id := AtSet(key)])
    case SetNx(id) => DoSet(c, s, id)
    case Incr(id) => DoIncr(c, s, id)
    case Ttl(id) => DoTtl(s, id)
    case Expire(id) => DoExpire(c, s, id)
    case Tick(elapsed) => s.(now := s.now + elapsed)
    case Crash(id) => s.(requests := s.requests[id := Crashed(s.requests[id].key, Counted(s.requests[id]))])
    case LoseTtl(key) => s.(counters := s.counters[key := s.counters[key].(deadline := None)])
  }

  function DoSet(c: Config, s: State, id: nat): State
    requires id in s.requests && s.requests[id].AtSet?
  {
    var key := s.requests[id].key;
    if Live(s.counters, key, s.now) then
      s.(requests := s.requests[id := AtIncr(key)])
    else
      var counter := Created(s.counters, key, Some(s.now + c.window), s.now);
      s.(counters := s.counters[key := counter],
         requests := s.requests[id := Done(key, counter.gen, counter.count)],
         log := s.log + [Decision(c, key, counter, s.now)])
  }

  /** INCR creates a counter without expiry when the key expired since the SET lost. */
  function DoIncr(c: Config, s: State, id: nat): State
    requires id in s.requests && s.requests[id].AtIncr?
  {
    var key := s.requests[id].key;
    var counter := if Live(s.counters, key, s.now) then Bumped(s.counters[key])
                   else Created(s.counters, key, None, s.now);
    s.(counters := s.counters[key := counter],
       requests := s.requests[id := AtTtl(key, counter.gen, counter.count)],
       log := s.log + [Decision(c, key, counter, s.now)])
  }

  /** TTL answers a negative number both for a key without expiry and for a missing key. */
  function DoTtl(s: State, id: nat): State
    requires id in s.requests && s.requests[id].AtTtl?
  {
    var AtTtl(key, gen, count) := s.requests[id];
    var negative := !Live(s.counters, key, s.now) || s.counters[key].deadline.None?;
    s.(requests := s.requests[id := if negative then AtExpire(key, gen, count) else Done(key, gen, count)])
  }

  function DoExpire(c: Config, s: State, id: nat): State
    requires id in s.requests && s.requests[id].AtExpire?
  {
    var AtExpire(key, gen, count) := s.requests[id];
    s.(counters := if Live(s.counters, key, s.now)
                   then s.counters[key := s.counters[key].(deadline := Some(s.now + c.window))]
                   else s.counters,
       requests := s.requests[id := Done(key, gen, count)])
  }

  function Init(start: int): State {
    State(start, map[], map[], [])
  }

  /** The actions can be taken one after the other from `s`. */
  predicate CanRun(c: Config, s: State, acts: seq<Action>)
    decreases |acts|
  {
    acts == [] || (Enabled(s, acts[0]) && CanRun(c, Next(c, s, acts[0]), acts[1..]))
  }

  function Run(c: Config, s: State, acts: seq<Action>): State
    requires CanRun(c, s, acts)
    decreases |acts|
  {
    if acts == [] then s else Run(c, Next(c, s, acts[0]), acts[1..])
  }

  // ---- What every run keeps ----

  /** Decisions of one key: generations only advance, and a later generation is born more than a window after the
      birth of an earlier one and after its last decision. */
  ghost predicate Ordered(c: Config, e: Event, f: Event) {
    e.key == f.key ==>
      && e.gen <= f.gen
      && (e.gen == f.gen ==> e.birth == f.birth)
      && (e.gen < f.gen ==> e.birth + c.window < f.birth && e.time < f.birth)
  }

  /** The first decision of a counter is its birth. */
  predicate BirthOk(e: Event) {
    e.birth <= e.time && (e.count == 1 ==> e.birth == e.time)
  }

  ghost predicate LogOk(c: Config, log: seq<Event>) {
    && (forall i :: 0 <= i < |log| ==> BirthOk(log[i]))
    && (forall i, j :: 0 <= i < j < |log| ==> log[i].time <= log[j].time && Ordered(c, log[i], log[j]))
  }

  /** The generation's first decision is in the log. */
  ghost predicate Decided(log: seq<Event>, key: string, gen: nat) {
    exists i :: 0 <= i < |log| && IsFirst(log[i], key, gen)
  }

  predicate IsFirst(e: Event, key: string, gen: nat) {
    e.key == key && e.gen == gen && e.count == 1
  }

  /** How a counter stands to one earlier decision of its key. */
  ghost predicate CounterAfter(c: Config, counter: Counter, e: Event) {
    && e.gen <= counter.gen
    && (e.gen == counter.gen ==>
          e.birth == counter.birth && (counter.deadline.Some? ==> e.time <= counter.deadline.value))
    && (e.gen < counter.gen ==> e.birth + c.window < counter.birth && e.time < counter.birth)
  }

  ghost predicate CounterOk(c: Config, s: State, key: string)
    requires key in s.counters
  {
    var counter := s.counters[key];
    && 1 <= counter.count && counter.birth <= s.now
    && (counter.deadline.Some? ==> counter.birth + c.window <= counter.deadline.value <= s.now + c.window)
    && (forall i :: 0 <= i < |s.log| && s.log[i].key == key ==> CounterAfter(c, counter, s.log[i]))
    && (forall g: nat :: g <= counter.gen ==> Decided(s.log, key, g))
  }

  ghost predicate TimingInv(c: Config, s: State) {
    && LogOk(c, s.log)
    && (forall i :: 0 <= i < |s.log| ==> s.log[i].time <= s.now && s.log[i].key in s.counters)
    && (forall key :: key in s.counters ==> CounterOk(c, s, key))
  }

  /** From `s` to `t` a decision is logged for a counter that is the live one, bumped, or a newly created one. */
  ghost predicate Appends(c: Config, s: State, t: State, key: string, counter: Counter) {
    && t.now == s.now
    && t.counters == s.counters[key := counter]
    && t.log == s.log + [Decision(c, key, counter, s.now)]
    && counter == (if Live(s.counters, key, s.now) then Bumped(s.counters[key])
                   else Created(s.counters, key, counter.deadline, s.now))
    && (!Live(s.counters, key, s.now) && counter.deadline.Some? ==> counter.deadline.value == s.now + c.window)
  }

  /** Every step either appends one decision or leaves the log alone. */
  lemma StepAppendsOrNot(c: Config, s: State, a: Action)
    requires Enabled(s, a)
    ensures var t := Next(c, s, a);
      || ((a.SetNx? || a.Incr?) && Appends(c, s, t, s.requests[a.id].key, t.counters[s.requests[a.id].key]))
      || QuietStep(c, s, t)
  {
  }

  /** Without a decision, time may pass and deadlines may be lost or set a whole window ahead. */
  ghost predicate QuietStep(c: Config, s: State, t: State) {
    && t.log == s.log && s.now <= t.now && t.counters.Keys == s.counters.Keys
    && (forall key :: key in s.counters ==>
          || t.counters[key] == s.counters[key]
          || t.counters[key] == s.counters[key].(deadline := None)
          || t.counters[key] == s.counters[key].(deadline := Some(t.now + c.window)))
  }

  lemma AppendKeepsTiming(c: Config, s: State, t: State, key: string, counter: Counter)
    requires 0 < c.window && TimingInv(c, s) && Appends(c, s, t, key, counter)
    ensures TimingInv(c, t)
  {
    var e := Decision(c, key, counter, s.now);
    forall i | 0 <= i < |s.log| && s.log[i].key == key
      ensures CounterAfter(c, counter, s.log[i]) && Ordered(c, s.log[i], e)
    {
      assert CounterAfter(c, s.counters[key], s.log[i]);
    }
    forall k | k in t.counters ensures CounterOk(c, t, k) {
      forall g: nat | g <= t.counters[k].gen ensures Decided(t.log, k, g) {
        AppendKeepsDecided(c, s, t, key, counter, k, g);
      }
    }
  }

  lemma AppendKeepsDecided(c: Config, s: State, t: State, key: string, counter: Counter, k: string, g: nat)
    requires Appends(c, s, t, key, counter)
    requires forall k :: k in s.counters ==> forall g: nat :: g <= s.counters[k].gen ==> Decided(s.log, k, g)
    requires k in t.counters && g <= t.counters[k].gen
    ensures Decided(t.log, k, g)
  {
    if k in s.counters && g <= s.counters[k].gen {
      assert Decided(s.log, k, g);
      var i :| 0 <= i < |s.log| && IsFirst(s.log[i], k, g);
      assert t.log[i] == s.log[i];
    } else {
      assert t.log[|s.log|] == Decision(c, key, counter, s.now);
    }
  }

  lemma QuietKeepsTiming(c: Config, s: State, t: State)
    requires 0 < c.window && TimingInv(c, s) && QuietStep(c, s, t)
    ensures TimingInv(c, t)
  {
    forall key | key in t.counters ensures CounterOk(c, t, key) {
      assert CounterOk(c, s, key);
      assert t.counters[key].gen == s.counters[key].gen && t.counters[key].birth == s.counters[key].birth;
    }
  }

  lemma StepKeepsTiming(c: Config, s: State, a: Action)
    requires 0 < c.window && TimingInv(c, s) && Enabled(s, a)
    ensures TimingInv(c, Next(c, s, a))
  {
    var t := Next(c, s, a);
    StepAppendsOrNot(c, s, a);
    if QuietStep(c, s, t) {
      QuietKeepsTiming(c, s, t);
    } else {
      var key := s.requests[a.id].key;
      AppendKeepsTiming(c, s, t, key, t.counters[key]);
    }
  }

  lemma {:induction false} RunKeepsTiming(c: Config, s: State, acts: seq<Action>)
    requires 0 < c.window && TimingInv(c, s) && CanRun(c, s, acts)
    ensures TimingInv(c, Run(c, s, acts))
    decreases |acts|
  {
    if acts != [] {
      StepKeepsTiming(c, s, acts[0]);
      RunKeepsTiming(c, Next(c, s, acts[0]), acts[1..]);
    }
  }

  // ---- Budget of one generation ----

  function Max0(n: int): nat { if n < 0 then 0 else n }

  function Min(a: int, b: int): int { if a < b then a else b }

  /** How many deciding commands the generation has seen. */
  function Decisions(log: seq<Event>, key: string, gen: nat): nat {
    if log == [] then 0
    else
      var e := log[|log| - 1];
      Decisions(log[..|log| - 1], key, gen) + (if e.key == key && e.gen == gen then 1 else 0)
  }

  /** How many requests the generation has admitted. */
  function Admissions(log: seq<Event>, key: string, gen: nat): nat {
    if log == [] then 0
    else
      var e := log[|log| - 1];
      Admissions(log[..|log| - 1], key, gen) + (if e.key == key && e.gen == gen && e.admitted then 1 else 0)
  }

  /** How many requests of the key were admitted at times in `[from, to]`. */
  function AdmittedWithin(log: seq<Event>, key: string, from: int, to: int): nat {
    if log == [] then 0
    else
      var e := log[|log| - 1];
      AdmittedWithin(log[..|log| - 1], key, from, to)
      + (if e.key == key && from <= e.time <= to && e.admitted then 1 else 0)
  }

  /** The k-th deciding command of a generation returned count k and was admitted iff k <= limit. */
  ghost predicate Ranked(c: Config, log: seq<Event>) {
    forall i :: 0 <= i < |log| ==>
      && log[i].count == Decisions(log[..i], log[i].key, log[i].gen) + 1
      && (log[i].admitted <==> log[i].count <= c.limit)
  }

  /** A counter holds the number of its decisions, and no later one has any. */
  ghost predicate CounterCounts(log: seq<Event>, key: string, counter: Counter) {
    && counter.count == Decisions(log, key, counter.gen)
    && (forall g :: counter.gen < g ==> Decisions(log, key, g) == 0)
  }

  ghost predicate CountInv(c: Config, s: State) {
    && Ranked(c, s.log)
    && (forall key :: key in s.counters ==> CounterCounts(s.log, key, s.counters[key]))
    && (forall key, g :: key !in s.counters ==> Decisions(s.log, key, g) == 0)
  }

  lemma AppendKeepsCounts(c: Config, s: State, t: State, key: string, counter: Counter)
    requires CountInv(c, s) && Appends(c, s, t, key, counter)
    ensures CountInv(c, t)
  {
    var e := Decision(c, key, counter, s.now);
    RankedGrows(c, s.log, e);
    forall k | k in t.counters ensures CounterCounts(t.log, k, t.counters[k]) {
      NextCounts(c, s, key, counter, k);
    }
    forall k, g | k !in t.counters ensures Decisions(t.log, k, g) == 0 {
      OneMoreDecision(s.log, e, k, g);
    }
  }

  /** The counts of one key after the decision. */
  lemma NextCounts(c: Config, s: State, key: string, counter: Counter, k: string)
    requires CountInv(c, s) && (k in s.counters || k == key)
    requires counter == if Live(s.counters, key, s.now) then Bumped(s.counters[key])
                        else Created(s.counters, key, counter.deadline, s.now)
    ensures CounterCounts(s.log + [Decision(c, key, counter, s.now)], k, if k == key then counter else s.counters[k])
  {
    var after := if k == key then counter else s.counters[k];
    var e := Decision(c, key, counter, s.now);
    OneMoreDecision(s.log, e, k, after.gen);
    forall g | after.gen < g ensures Decisions(s.log + [e], k, g) == 0 {
      OneMoreDecision(s.log, e, k, g);
    }
  }

  lemma OneMoreDecision(log: seq<Event>, e: Event, key: string, gen: nat)
    ensures Decisions(log + [e], key, gen) == Decisions(log, key, gen) + (if e.key == key && e.gen == gen then 1 else 0)
  {
    assert (log + [e])[..|log|] == log;
  }

  lemma RankedGrows(c: Config, log: seq<Event>, e: Event)
    requires Ranked(c, log)
    requires e.count == Decisions(log, e.key, e.gen) + 1 && (e.admitted <==> e.count <= c.limit)
    ensures Ranked(c, log + [e])
  {
    var longer := log + [e];
    forall i | 0 <= i < |longer|
      ensures longer[i].count == Decisions(longer[..i], longer[i].key, longer[i].gen) + 1
      ensures longer[i].admitted <==> longer[i].count <= c.limit
    {
      assert longer[..i] == log[..i];
      assert log[..|log|] == log;
    }
  }

  lemma StepKeepsCounts(c: Config, s: State, a: Action)
    requires CountInv(c, s) && Enabled(s, a)
    ensures CountInv(c, Next(c, s, a))
  {
    var t := Next(c, s, a);
    StepAppendsOrNot(c, s, a);
    if !QuietStep(c, s, t) {
      var key := s.requests[a.id].key;
      AppendKeepsCounts(c, s, t, key, t.counters[key]);
    }
  }

  lemma {:induction false} RunKeepsCounts(c: Config, s: State, acts: seq<Action>)
    requires CountInv(c, s) && CanRun(c, s, acts)
    ensures CountInv(c, Run(c, s, acts))
    decreases |acts|
  {
    if acts != [] {
      StepKeepsCounts(c, s, acts[0]);
      RunKeepsCounts(c, Next(c, s, acts[0]), acts[1..]);
    }
  }

  lemma {:induction false} RankedBudget(c: Config, log: seq<Event>, key: string, gen: nat)
    requires Ranked(c, log)
    ensures Admissions(log, key, gen) == Min(Decisions(log, key, gen), Max0(c.limit))
  {
    if log != [] {
      var rest := log[..|log| - 1];
      forall i | 0 <= i < |rest| ensures rest[..i] == log[..i] {}
      RankedBudget(c, rest, key, gen);
      assert log[..|log| - 1] == rest;
    }
  }

  /** Whichever requests and processes issued them, `n` deciding commands on one generation of a counter admit
      exactly `min(n, limit)` requests, and the k-th of them returned the count k. */
  lemma GenerationBudget(c: Config, start: int, acts: seq<Action>, key: string, gen: nat)
    requires CanRun(c, Init(start), acts)
    ensures var log := Run(c, Init(start), acts).log;
      && Admissions(log, key, gen) == Min(Decisions(log, key, gen), Max0(c.limit))
      && Ranked(c, log)
  {
    RunKeepsCounts(c, Init(start), acts);
    RankedBudget(c, Run(c, Init(start), acts).log, key, gen);
  }

  // ---- The window bound ----

  /** Three different generations never decide within one window. */
  lemma TwoGenerationsApart(c: Config, s: State, i: nat, j: nat)
    requires 0 < c.window && TimingInv(c, s)
    requires i < |s.log| && j < |s.log| && s.log[i].key == s.log[j].key
    requires s.log[i].gen + 2 <= s.log[j].gen
    ensures s.log[i].time + c.window < s.log[j].time
  {
    var key := s.log[i].key;
    assert CounterAfter(c, s.counters[key], s.log[j]);
    assert Decided(s.log, key, s.log[i].gen + 1);
    DecidedBetween(c, s.log, i, j);
  }

  lemma DecidedBetween(c: Config, log: seq<Event>, i: nat, j: nat)
    requires 0 < c.window && LogOk(c, log)
    requires i < |log| && j < |log| && log[i].key == log[j].key && log[i].gen + 2 <= log[j].gen
    requires Decided(log, log[i].key, log[i].gen + 1)
    ensures log[i].time + c.window < log[j].time
  {
    var m :| 0 <= m < |log| && IsFirst(log[m], log[i].key, log[i].gen + 1);
    assert BirthOk(log[m]) && BirthOk(log[j]);
    assert m < i ==> Ordered(c, log[m], log[i]);
    assert j < m ==> Ordered(c, log[j], log[m]);
    assert Ordered(c, log[i], log[m]) && Ordered(c, log[m], log[j]);
  }

  lemma {:induction false} WithinOne(log: seq<Event>, key: string, from: int, to: int, gen: nat)
    requires forall i :: 0 <= i < |log| && log[i].key == key && from <= log[i].time <= to ==> log[i].gen == gen
    ensures AdmittedWithin(log, key, from, to) <= Admissions(log, key, gen)
  {
    if log != [] {
      WithinOne(log[..|log| - 1], key, from, to, gen);
    }
  }

  lemma {:induction false} WithinTwo(log: seq<Event>, key: string, from: int, to: int, gen: nat)
    requires forall i :: 0 <= i < |log| && log[i].key == key && from <= log[i].time <= to ==>
               log[i].gen == gen || log[i].gen == gen + 1
    ensures AdmittedWithin(log, key, from, to) <= Admissions(log, key, gen) + Admissions(log, key, gen + 1)
  {
    if log != [] {
      WithinTwo(log[..|log| - 1], key, from, to, gen);
    }
  }

  /** An admission outside the interval is one less inside. */
  lemma {:induction false} WithinTwoButOne(log: seq<Event>, key: string, from: int, to: int, gen: nat, first: nat)
    requires forall i :: 0 <= i < |log| && log[i].key == key && from <= log[i].time <= to ==>
               log[i].gen == gen || log[i].gen == gen + 1
    requires first < |log| && log[first].key == key && log[first].gen == gen && log[first].admitted
    requires log[first].time < from
    ensures AdmittedWithin(log, key, from, to) + 1 <= Admissions(log, key, gen) + Admissions(log, key, gen + 1)
  {
    var n := |log| - 1;
    if first < n {
      WithinTwoButOne(log[..n], key, from, to, gen, first);
    } else {
      WithinTwo(log[..n], key, from, to, gen);
    }
  }

  /** The least generation deciding in the interval, if any. */
  lemma {:induction false} LeastGeneration(log: seq<Event>, key: string, from: int, to: int) returns (least: int)
    ensures -1 <= least < |log|
    ensures least == -1 ==> forall i :: 0 <= i < |log| && log[i].key == key ==> !(from <= log[i].time <= to)
    ensures 0 <= least ==> log[least].key == key && from <= log[least].time <= to
    ensures 0 <= least ==> forall i :: 0 <= i < |log| && log[i].key == key && from <= log[i].time <= to ==>
                                  log[least].gen <= log[i].gen
  {
    if log == [] {
      least := -1;
    } else {
      var n := |log| - 1;
      least := LeastGeneration(log[..n], key, from, to);
      if log[n].key == key && from <= log[n].time <= to && (least == -1 || log[n].gen < log[least].gen) {
        least := n;
      }
    }
  }

  /** The decisions of a key in an interval no longer than the window belong to two successive generations. */
  lemma TwoGenerations(c: Config, s: State, key: string, from: int, to: int) returns (gen: nat)
    requires 0 < c.window && TimingInv(c, s) && to - from <= c.window
    ensures forall i :: 0 <= i < |s.log| && s.log[i].key == key && from <= s.log[i].time <= to ==>
              s.log[i].gen == gen || s.log[i].gen == gen + 1
  {
    gen := 0;
    var least := LeastGeneration(s.log, key, from, to);
    if least != -1 {
      gen := s.log[least].gen;
      forall i | 0 <= i < |s.log| && s.log[i].key == key && from <= s.log[i].time <= to
        ensures s.log[i].gen == gen || s.log[i].gen == gen + 1
      {
        if gen + 2 <= s.log[i].gen {
          TwoGenerationsApart(c, s, least, i);
        }
      }
    }
  }

  predicate Inside(e: Event, key: string, from: int, to: int, gen: nat) {
    e.key == key && from <= e.time <= to && e.gen == gen
  }

  /** When the next generation decides in the interval, a generation was born, and admitted once, before it. */
  lemma BornBefore(c: Config, log: seq<Event>, key: string, from: int, to: int, gen: nat, j: nat) returns (first: nat)
    requires 1 <= c.limit && LogOk(c, log) && Ranked(c, log) && to - from <= c.window
    requires Decided(log, key, gen) && j < |log| && Inside(log[j], key, from, to, gen + 1)
    ensures first < |log| && log[first].key == key && log[first].gen == gen
    ensures log[first].admitted && log[first].time < from
  {
    first :| 0 <= first < |log| && IsFirst(log[first], key, gen);
    assert BirthOk(log[first]) && BirthOk(log[j]);
    assert j < first ==> Ordered(c, log[j], log[first]);
    assert Ordered(c, log[first], log[j]);
  }

  ghost predicate DecidesWithin(log: seq<Event>, key: string, from: int, to: int, gen: nat) {
    exists i :: 0 <= i < |log| && Inside(log[i], key, from, to, gen)
  }

  /** If both generations decide in the interval, `first` is an admission of the earlier one before it. */
  ghost predicate BornEarlier(log: seq<Event>, key: string, from: int, to: int, gen: nat, first: nat) {
    DecidesWithin(log, key, from, to, gen) && DecidesWithin(log, key, from, to, gen + 1) ==>
      && first < |log| && log[first].key == key && log[first].gen == gen
      && log[first].admitted && log[first].time < from
  }

  lemma FindBirth(c: Config, s: State, key: string, from: int, to: int, gen: nat) returns (first: nat)
    requires 1 <= c.limit && TimingInv(c, s) && Ranked(c, s.log) && to - from <= c.window
    ensures BornEarlier(s.log, key, from, to, gen, first)
  {
    first := 0;
    if DecidesWithin(s.log, key, from, to, gen) && DecidesWithin(s.log, key, from, to, gen + 1) {
      var j :| 0 <= j < |s.log| && Inside(s.log[j], key, from, to, gen + 1);
      assert CounterAfter(c, s.counters[key], s.log[j]);
      assert Decided(s.log, key, gen);
      first := BornBefore(c, s.log, key, from, to, gen, j);
    }
  }

  lemma BoundLog(c: Config, log: seq<Event>, key: string, from: int, to: int, gen: nat, first: nat)
    requires Ranked(c, log)
    requires forall i :: 0 <= i < |log| && log[i].key == key && from <= log[i].time <= to ==>
               log[i].gen == gen || log[i].gen == gen + 1
    requires 1 <= c.limit ==> BornEarlier(log, key, from, to, gen, first)
    ensures AdmittedWithin(log, key, from, to) <= Max0(2 * c.limit - 1)
  {
    RankedBudget(c, log, key, gen);
    RankedBudget(c, log, key, gen + 1);
    if c.limit < 1 {
      WithinTwo(log, key, from, to, gen);
    } else if !DecidesWithin(log, key, from, to, gen) {
      assert forall i :: 0 <= i < |log| ==> !Inside(log[i], key, from, to, gen);
      WithinOne(log, key, from, to, gen + 1);
    } else if !DecidesWithin(log, key, from, to, gen + 1) {
      assert forall i :: 0 <= i < |log| ==> !Inside(log[i], key, from, to, gen + 1);
      WithinOne(log, key, from, to, gen);
    } else {
      WithinTwoButOne(log, key, from, to, gen, first);
    }
  }

  lemma BoundAt(c: Config, s: State, key: string, from: int, to: int)
    requires 0 < c.window && TimingInv(c, s) && Ranked(c, s.log) && to - from <= c.window
    ensures AdmittedWithin(s.log, key, from, to) <= Max0(2 * c.limit - 1)
  {
    var gen := TwoGenerations(c, s, key, from, to);
    var first: nat := 0;
    if 1 <= c.limit {
      first := FindBirth(c, s, key, from, to, gen);
    }
    BoundLog(c, s.log, key, from, to, gen, first);
  }

  /** In every run - crashes, lost expiries and any interleaving included - at most twice the limit less one is
      admitted for one key in any time interval no longer than the window. */
  lemma WindowBound(c: Config, start: int, acts: seq<Action>, key: string, from: int, to: int)
    requires 0 < c.window && CanRun(c, Init(start), acts)
    requires to - from <= c.window
    ensures AdmittedWithin(Run(c, Init(start), acts).log, key, from, to) <= Max0(2 * c.limit - 1)
  {
    RunKeepsTiming(c, Init(start), acts);
    RunKeepsCounts(c, Init(start), acts);
    BoundAt(c, Run(c, Init(start), acts), key, from, to);
  }
}
