/**
 The limiter's own code: four Redis commands on a shared store, and the request handler that issues them.
 A handler that is not interrupted is proved to be one run of the protocol in `RateLimiter`.
 */
module RedisCounters {
  import opened Options
  import opened RateLimiter
  import opened CounterLifetimes

  /** `int()` truncates towards zero. */
  function Truncate(x: real): int {
    if 0.0 <= x then x.Floor else -(-x).Floor
  }

  /** The window every command uses: whole seconds, at least one, in milliseconds. */
  function WindowMillis(windowSeconds: real): (w: int)
    ensures 1000 <= w
    ensures 1.0 <= windowSeconds ==> windowSeconds - 1.0 < w as real / 1000.0 <= windowSeconds
    ensures windowSeconds < 1.0 ==> w == 1000
  {
    var whole := Truncate(windowSeconds);
    1000 * (if 1 < whole then whole else 1)
  }

  class CounterStore {
    var now: int
    var counters: map<string, Counter>

    method SetNxEx(key: string, window: int) returns (won: bool)
      modifies `counters
      ensures won <==> !old(Live(counters, key, now))
      ensures won ==> counters == old(counters)[key := Created(old(counters), key, Some(now + window), now)]
      ensures !won ==> counters == old(counters)
    {
      won := !Live(counters, key, now);
      if won {
        counters := counters[key := Created(counters, key, Some(now + window), now)];
      }
    }

    method IncrKey(key: string) returns (count: nat)
      modifies `counters
      ensures old(Live(counters, key, now)) ==>
                count == old(counters)[key].count + 1
                && counters == old(counters)[key := Bumped(old(counters)[key])]
      ensures !old(Live(counters, key, now)) ==>
                count == 1 && counters == old(counters)[key := Created(old(counters), key, None, now)]
    {
      var counter := if Live(counters, key, now) then Bumped(counters[key]) else Created(counters, key, None, now);
      counters := counters[key := counter];
      count := counter.count;
    }

    /** Seconds to live rounded as Redis does; -1 for a key without expiry, -2 for a missing key. */
    method TtlOf(key: string) returns (ttl: int)
      ensures ttl < 0 <==> !Live(counters, key, now) || counters[key].deadline.None?
    {
      if !Live(counters, key, now) {
        ttl := -2;
      } else if counters[key].deadline.None? {
        ttl := -1;
      } else {
        ttl := (counters[key].deadline.value - now + 500) / 1000;
      }
    }

    method ExpireKey(key: string, window: int)
      modifies `counters
      ensures old(Live(counters, key, now)) ==>
                counters == old(counters)[key := old(counters)[key].(deadline := Some(now + window))]
      ensures !old(Live(counters, key, now)) ==> counters == old(counters)
    {
      if Live(counters, key, now) {
        counters := counters[key := counters[key].(deadline := Some(now + window))];
      }
    }

    /** INCR on a live counter, and the guard after it. */
    method CountAndGuard(key: string, window: int) returns (count: nat)
      requires Live(counters, key, now)
      modifies `counters
      ensures count == old(counters)[key].count + 1
      ensures counters == old(counters)[key := Guarded(window, old(counters)[key], now)]
    {
      count := IncrKey(key);
      var ttl := TtlOf(key);
      if ttl < 0 {
        ExpireKey(key, window);
      }
    }

    /** The request handler. `trace` is the protocol run it performs: its effect on the store and its answer are
        those of request 0 of that run. Other keys are untouched and the key is left with an expiry. */
    method CheckRateLimit(key: string, maxRequests: int, windowSeconds: real)
      returns (allowed: bool, ghost trace: seq<Action>)
      modifies `counters
      ensures forall k :: k != key ==> (k in counters <==> k in old(counters))
      ensures forall k :: k != key && k in counters ==> counters[k] == old(counters)[k]
      ensures Live(counters, key, now) && counters[key].deadline.Some?
      ensures allowed <==> counters[key].count <= maxRequests
      ensures counters[key].count == if old(Live(counters, key, now)) then old(counters)[key].count + 1 else 1
      ensures HandledBy(Config(WindowMillis(windowSeconds), maxRequests), State(now, old(counters), map[], []), trace,
                        counters, allowed)
    {
      var window := WindowMillis(windowSeconds);
      ghost var c := Config(window, maxRequests);
      ghost var s := State(now, counters, map[], []);
      var newlySet := SetNxEx(key, window);
      if newlySet {
        trace := Winning(c, s, key);
        return 1 <= maxRequests, trace;
      }
      if counters[key].deadline.Some? {
        trace := Counting(c, s, key);
      } else {
        trace := Rearming(c, s, key);
      }
      var count := CountAndGuard(key, window);
      allowed := count <= maxRequests;
    }
  }

  /** Request 0 is answered `allowed` by this run, which leaves these counters. */
  ghost predicate HandledBy(c: Config, s: State, trace: seq<Action>, counters: map<string, Counter>, allowed: bool) {
    && CanRun(c, s, trace) && KeepsTtls(trace)
    && var t := Run(c, s, trace);
       && t.counters == counters
       && t.requests.Keys == {0} && t.requests[0].Done?
       && |t.log| == 1 && t.log[0].admitted == allowed
  }

  /** The run of a request whose SET wins. */
  lemma Winning(c: Config, s: State, key: string) returns (trace: seq<Action>)
    requires s.requests == map[] && s.log == [] && !Live(s.counters, key, s.now)
    ensures HandledBy(c, s, trace, s.counters[key := Created(s.counters, key, Some(s.now + c.window), s.now)],
                      1 <= c.limit)
  {
    trace := [Arrive(0, key), SetNx(0)];
    var s1 := Next(c, s, trace[0]);
    var s2 := Next(c, s1, trace[1]);
    RunThrough(c, [s, s1, s2], trace);
  }

  /** The counter left behind by a request whose SET loses. */
  function Guarded(window: int, counter: Counter, now: int): Counter {
    if counter.deadline.None? then Rearmed(window, counter, now) else Bumped(counter)
  }

  /** The counter left behind when the TTL guard acts. */
  function Rearmed(window: int, counter: Counter, now: int): Counter {
    Bumped(counter).(deadline := Some(now + window))
  }

  /** The run of a request whose SET loses to a live counter with an expiry. */
  lemma Counting(c: Config, s: State, key: string) returns (trace: seq<Action>)
    requires s.requests == map[] && s.log == [] && Live(s.counters, key, s.now) && s.counters[key].deadline.Some?
    ensures HandledBy(c, s, trace, s.counters[key := Bumped(s.counters[key])], s.counters[key].count + 1 <= c.limit)
  {
    trace := [Arrive(0, key), SetNx(0), Incr(0), Ttl(0)];
    var s1 := Next(c, s, trace[0]);
    var s2 := Next(c, s1, trace[1]);
    var s3 := Next(c, s2, trace[2]);
    var s4 := Next(c, s3, trace[3]);
    RunThrough(c, [s, s1, s2, s3, s4], trace);
  }

  /** The run of one that loses to a counter that has lost its expiry. */
  lemma Rearming(c: Config, s: State, key: string) returns (trace: seq<Action>)
    requires s.requests == map[] && s.log == [] && Live(s.counters, key, s.now) && s.counters[key].deadline.None?
    ensures HandledBy(c, s, trace, s.counters[key := Rearmed(c.window, s.counters[key], s.now)],
                      s.counters[key].count + 1 <= c.limit)
  {
    trace := [Arrive(0, key), SetNx(0), Incr(0), Ttl(0), Expire(0)];
    var s1 := Next(c, s, trace[0]);
    var s2 := Next(c, s1, trace[1]);
    var s3 := Next(c, s2, trace[2]);
    var s4 := Next(c, s3, trace[3]);
    var s5 := Next(c, s4, trace[4]);
    assert s5.counters == s.counters[key := Rearmed(c.window, s.counters[key], s.now)];
    RunThrough(c, [s, s1, s2, s3, s4, s5], trace);
  }
}
