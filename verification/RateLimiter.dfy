/** The per-IP token buckets of identity-service and the cleanup that evicts them.
    Time is in seconds, and a request is internal when isInternalRequest says so. */
module RateLimiter {

  datatype Limits = Limits(rate: real, burst: nat)

  /** limiter.tokens and limiter.last of golang.org/x/time/rate, and lastSeen. */
  datatype Entry = Entry(tokens: real, last: real, lastSeen: real)

  type Entries = map<string, Entry>

  function Min(a: real, b: real): real {
    if a <= b then a else b
  }

  /** What a bucket gains in that time, if it is not full. */
  function Gain(l: Limits, time: real): real {
    l.rate * time
  }

  /** Limiter.advance */
  function Advanced(l: Limits, e: Entry, now: real): real {
    Min(l.burst as real, e.tokens + Gain(l, if now < e.last then 0.0 else now - e.last))
  }

  /** The tokens an address could spend now; a new bucket is full. */
  function Level(l: Limits, entries: Entries, ip: string, now: real): real {
    if ip in entries then Advanced(l, entries[ip], now) else l.burst as real
  }

  function Touched(l: Limits, entries: Entries, ip: string, now: real): Entries {
    entries[ip := if ip in entries then entries[ip].(lastSeen := now) else Entry(l.burst as real, now, now)]
  }

  predicate Admits(l: Limits, entries: Entries, ip: string, now: real) {
    l.burst >= 1 && Level(l, entries, ip, now) >= 1.0
  }

  /** A refused request leaves the bucket as it was. */
  function AfterRequest(l: Limits, entries: Entries, ip: string, now: real): Entries {
    if Admits(l, entries, ip, now) then entries[ip := Entry(Level(l, entries, ip, now) - 1.0, now, now)]
    else Touched(l, entries, ip, now)
  }

  function Evicted(entries: Entries, threshold: real): Entries {
    map ip | ip in entries && entries[ip].lastSeen >= threshold :: entries[ip]
  }

  class IPRateLimiter {
    var entries: Entries
    const limits: Limits

    constructor (limits: Limits)
      ensures this.limits == limits && entries == map[]
    {
      this.limits, entries := limits, map[];
    }

    method Allow(ip: string, isInternal: bool, now: real) returns (ok: bool)
      modifies this
      ensures ok == (isInternal || Admits(limits, old(entries), ip, now))
      ensures entries == if isInternal then old(entries) else AfterRequest(limits, old(entries), ip, now)
      ensures isInternal ==> ok && entries == old(entries)
      ensures !isInternal ==>
        && ip in entries && entries - {ip} == old(entries) - {ip} && entries[ip].lastSeen == now
        && var full := limits.burst as real;
        && (ip !in old(entries) ==> ok == (limits.burst >= 1) && entries[ip].tokens == if ok then full - 1.0 else full)
        && (ip in old(entries) && old(entries)[ip].last <= now ==>
              var e := old(entries)[ip];
              var tokens := e.tokens + Gain(limits, now - e.last);
              && ok == (limits.burst >= 1 && tokens >= 1.0)
              && (ok ==> entries[ip].last == now)
              && (ok ==> entries[ip].tokens == (if tokens <= full then tokens else full) - 1.0)
              && (!ok ==> entries[ip] == e.(lastSeen := now)))
    {
      assert Gain(limits, 0.0) == 0.0;
      hide Gain;
      if isInternal {
        return true;
      }
      if ip !in entries {
        entries := entries[ip := Entry(limits.burst as real, now, now)];
      }
      entries := entries[ip := entries[ip].(lastSeen := now)];
      var tokens := Advanced(limits, entries[ip], now);
      ok := limits.burst >= 1 && tokens - 1.0 >= 0.0;
      if ok {
        entries := entries[ip := entries[ip].(tokens := tokens - 1.0, last := now)];
      }
    }

    method Cleanup(ttl: real, now: real)
      modifies this
      ensures entries == Evicted(old(entries), now - ttl)
      ensures forall ip :: ip in entries <==> ip in old(entries) && now - old(entries)[ip].lastSeen <= ttl
      ensures forall ip | ip in entries :: entries[ip] == old(entries)[ip]
    {
      var threshold := now - ttl;
      var todo := entries.Keys;
      while todo != {}
        invariant todo <= old(entries).Keys
        invariant forall ip :: ip in entries <==>
          ip in old(entries) && (ip in todo || old(entries)[ip].lastSeen >= threshold)
        invariant forall ip | ip in entries :: entries[ip] == old(entries)[ip]
        decreases todo
      {
        var ip :| ip in todo;
        if entries[ip].lastSeen < threshold {
          entries := entries - {ip};
        }
        todo := todo - {ip};
      }
    }
  }

  // -------------------------------------------------------------------- runs

  datatype Call = Request(at: real, ip: string) | Cleanup(at: real)

  function Step(l: Limits, ttl: real, entries: Entries, c: Call): Entries {
    match c
    case Request(at, ip) => AfterRequest(l, entries, ip, at)
    case Cleanup(at) => Evicted(entries, at - ttl)
  }

  function After(l: Limits, ttl: real, entries: Entries, calls: seq<Call>): Entries
    decreases |calls|
  {
    if calls == [] then entries else After(l, ttl, Step(l, ttl, entries, calls[0]), calls[1..])
  }

  /** The answers to the external requests, in order. */
  function Answers(l: Limits, ttl: real, entries: Entries, calls: seq<Call>): seq<bool>
    decreases |calls|
  {
    if calls == [] then []
    else
      var rest := Answers(l, ttl, Step(l, ttl, entries, calls[0]), calls[1..]);
      if calls[0].Request? then [Admits(l, entries, calls[0].ip, calls[0].at)] + rest else rest
  }

  function WithoutCleanups(calls: seq<Call>): seq<Call>
    decreases |calls|
  {
    if calls == [] then []
    else if calls[0].Request? then [calls[0]] + WithoutCleanups(calls[1..])
    else WithoutCleanups(calls[1..])
  }

  predicate Ordered(calls: seq<Call>, from: real)
    decreases |calls|
  {
    calls == [] || (from <= calls[0].at && Ordered(calls[1..], calls[0].at))
  }

  ghost predicate Valid(l: Limits, entries: Entries, now: real) {
    forall ip | ip in entries ::
      0.0 <= entries[ip].tokens <= l.burst as real && entries[ip].last <= entries[ip].lastSeen <= now
  }

  lemma GainGrows(l: Limits, x: real, y: real)
    requires l.rate >= 0.0 && x <= y
    ensures Gain(l, x) <= Gain(l, y) && Gain(l, 0.0) == 0.0
  {}

  lemma GainSplits(l: Limits, first: real, rest: real, both: real)
    requires both == first + rest
    ensures Gain(l, both) == Gain(l, first) + Gain(l, rest)
  {}

  /** A bucket is full again after ttl at the latest. */
  predicate RefillsWithin(l: Limits, ttl: real) {
    l.rate >= 0.0 && Gain(l, ttl) >= l.burst as real
  }

  lemma StepKeepsValid(l: Limits, ttl: real, entries: Entries, c: Call, now: real)
    requires l.rate >= 0.0 && Valid(l, entries, now) && now <= c.at
    ensures Valid(l, Step(l, ttl, entries, c), c.at)
  {}

  lemma StillValid(l: Limits, entries: Entries, now: real, later: real)
    requires Valid(l, entries, now) && now <= later
    ensures Valid(l, entries, later)
  {}

  // -------------------------------------------------- eviction, unobservable

  /** Both limiters have the same bucket for the address, or one as good as new. */
  predicate Alike(l: Limits, a: Entries, b: Entries, ip: string, now: real) {
    (ip in a && ip in b && a[ip].tokens == b[ip].tokens && a[ip].last == b[ip].last) ||
    (Level(l, a, ip, now) == l.burst as real && Level(l, b, ip, now) == l.burst as real)
  }

  ghost predicate AllAlike(l: Limits, a: Entries, b: Entries, now: real) {
    forall ip :: Alike(l, a, b, ip, now)
  }

  lemma FullStaysFull(l: Limits, entries: Entries, ip: string, now: real, later: real)
    requires l.rate >= 0.0 && now <= later && Level(l, entries, ip, now) == l.burst as real
    ensures Level(l, entries, ip, later) == l.burst as real
  {
    hide Gain;
    if ip in entries {
      var last := entries[ip].last;
      GainGrows(l, if now < last then 0.0 else now - last, if later < last then 0.0 else later - last);
    }
  }

  lemma AlikeLater(l: Limits, a: Entries, b: Entries, now: real, later: real)
    requires l.rate >= 0.0 && now <= later && AllAlike(l, a, b, now)
    ensures AllAlike(l, a, b, later)
  {
    hide Level;
    forall ip ensures Alike(l, a, b, ip, later) {
      assert Alike(l, a, b, ip, now);
      if Level(l, a, ip, now) == l.burst as real && Level(l, b, ip, now) == l.burst as real {
        FullStaysFull(l, a, ip, now, later);
        FullStaysFull(l, b, ip, now, later);
      }
    }
  }

  /** An evicted bucket had refilled: lastSeen is more than ttl ago. */
  lemma EvictedWasFull(l: Limits, ttl: real, entries: Entries, ip: string, now: real)
    requires RefillsWithin(l, ttl) && Valid(l, entries, now)
    requires ip in entries && ip !in Evicted(entries, now - ttl)
    ensures Level(l, entries, ip, now) == l.burst as real
  {
    hide Gain;
    GainGrows(l, ttl, now - entries[ip].last);
  }

  lemma AlikeLevels(l: Limits, a: Entries, b: Entries, ip: string, now: real)
    requires Alike(l, a, b, ip, now)
    ensures Level(l, a, ip, now) == Level(l, b, ip, now)
  {}

  lemma TouchKeepsLevel(l: Limits, entries: Entries, ip: string, now: real)
    ensures Level(l, Touched(l, entries, ip, now), ip, now) == Level(l, entries, ip, now)
  {}

  lemma RequestAlike(l: Limits, a: Entries, b: Entries, ip: string, now: real)
    requires AllAlike(l, a, b, now)
    ensures Admits(l, a, ip, now) == Admits(l, b, ip, now)
    ensures AllAlike(l, AfterRequest(l, a, ip, now), AfterRequest(l, b, ip, now), now)
  {
    hide Advanced;
    assert Alike(l, a, b, ip, now);
    AlikeLevels(l, a, b, ip, now);
    TouchKeepsLevel(l, a, ip, now);
    TouchKeepsLevel(l, b, ip, now);
    var a', b' := AfterRequest(l, a, ip, now), AfterRequest(l, b, ip, now);
    forall other ensures Alike(l, a', b', other, now) {
      assert Alike(l, a, b, other, now);
    }
  }

  lemma CleanupAlike(l: Limits, ttl: real, a: Entries, b: Entries, now: real)
    requires RefillsWithin(l, ttl) && Valid(l, a, now) && AllAlike(l, a, b, now)
    ensures AllAlike(l, Evicted(a, now - ttl), b, now)
  {
    hide Advanced, Gain;
    var a' := Evicted(a, now - ttl);
    forall ip ensures Alike(l, a', b, ip, now) {
      assert Alike(l, a, b, ip, now);
      AlikeLevels(l, a, b, ip, now);
      if ip in a && ip !in Evicted(a, now - ttl) {
        EvictedWasFull(l, ttl, a, ip, now);
      }
    }
  }

  lemma {:induction false} AlikeAnswers(l: Limits, ttl: real, a: Entries, b: Entries, calls: seq<Call>, now: real)
    requires RefillsWithin(l, ttl) && Valid(l, a, now) && Ordered(calls, now)
    requires AllAlike(l, a, b, now)
    ensures Answers(l, ttl, a, calls) == Answers(l, ttl, b, WithoutCleanups(calls))
    decreases |calls|
  {
    hide Gain, Level, Valid, AllAlike, Evicted;
    if calls == [] {
    } else {
      var c := calls[0];
      AlikeLater(l, a, b, now, c.at);
      StepKeepsValid(l, ttl, a, c, now);
      if c.Request? {
        RequestAlike(l, a, b, c.ip, c.at);
        AlikeAnswers(l, ttl, Step(l, ttl, a, c), Step(l, ttl, b, c), calls[1..], c.at);
        assert WithoutCleanups(calls)[1..] == WithoutCleanups(calls[1..]);
      } else {
        StillValid(l, a, now, c.at);
        CleanupAlike(l, ttl, a, b, c.at);
        AlikeAnswers(l, ttl, Step(l, ttl, a, c), b, calls[1..], c.at);
      }
    }
  }

  /** Cleanups at whatever times change no answer, when a bucket refills within ttl. */
  lemma EvictionIsUnobservable(l: Limits, ttl: real, calls: seq<Call>, start: real)
    requires RefillsWithin(l, ttl) && Ordered(calls, start)
    ensures Answers(l, ttl, map[], calls) == Answers(l, ttl, map[], WithoutCleanups(calls))
  {
    AlikeAnswers(l, ttl, map[], map[], calls, start);
  }

  // ----------------------------------------------- and only for those limits

  function Requests(n: nat, at: real, ip: string): seq<Call> {
    seq(n, _ => Request(at, ip))
  }

  lemma {:induction false} AnswersAppend(l: Limits, ttl: real, entries: Entries, a: seq<Call>, b: seq<Call>)
    ensures
      Answers(l, ttl, entries, a + b) == Answers(l, ttl, entries, a) + Answers(l, ttl, After(l, ttl, entries, a), b)
    decreases |a|
  {
    if a == [] {
      assert a + b == b;
    } else {
      assert (a + b)[0] == a[0] && (a + b)[1..] == a[1..] + b;
      AnswersAppend(l, ttl, Step(l, ttl, entries, a[0]), a[1..], b);
    }
  }

  /** An admitted request takes one token; time that does not pass adds none. */
  lemma TakesOne(l: Limits, entries: Entries, ip: string, at: real)
    requires Admits(l, entries, ip, at)
    ensures Level(l, AfterRequest(l, entries, ip, at), ip, at) == Level(l, entries, ip, at) - 1.0
  {
    assert Gain(l, 0.0) == 0.0;
  }

  lemma {:induction false} Drain(l: Limits, ttl: real, entries: Entries, n: nat, at: real, ip: string)
    requires 1 <= n <= l.burst && Level(l, entries, ip, at) >= n as real
    ensures false !in Answers(l, ttl, entries, Requests(n, at, ip))
    ensures
      var t := After(l, ttl, entries, Requests(n, at, ip));
      ip in t && t[ip] == Entry(Level(l, entries, ip, at) - n as real, at, at)
    decreases n
  {
    hide Level;
    assert Requests(n, at, ip)[1..] == Requests(n - 1, at, ip);
    TakesOne(l, entries, ip, at);
    if n > 1 {
      Drain(l, ttl, Step(l, ttl, entries, Request(at, ip)), n - 1, at, ip);
    } else {
      assert Requests(0, at, ip) == [];
    }
  }

  lemma {:induction false} Overdraw(l: Limits, ttl: real, entries: Entries, n: nat, at: real, ip: string)
    requires 0.0 <= Level(l, entries, ip, at) < n as real
    ensures false in Answers(l, ttl, entries, Requests(n, at, ip))
    decreases n
  {
    hide Level;
    assert Requests(n, at, ip)[1..] == Requests(n - 1, at, ip);
    if Admits(l, entries, ip, at) {
      TakesOne(l, entries, ip, at);
      Overdraw(l, ttl, Step(l, ttl, entries, Request(at, ip)), n - 1, at, ip);
    }
  }

  /** A limiter that refills too slowly: drained, evicted, and drained again too soon. */
  lemma SlowRefillShows(l: Limits, ttl: real, calls: seq<Call>, again: real, ip: string)
    requires l.rate > 0.0 && 0.0 <= ttl < again && Gain(l, again) < l.burst as real
    requires calls == Requests(l.burst, 0.0, ip) + ([Cleanup(again)] + Requests(l.burst, again, ip))
    ensures false !in Answers(l, ttl, map[], calls)
    ensures false in Answers(l, ttl, map[], Requests(l.burst, 0.0, ip) + Requests(l.burst, again, ip))
  {
    hide Gain;
    var n := l.burst;
    var drained := After(l, ttl, map[], Requests(n, 0.0, ip));
    GainGrows(l, 0.0, again);
    Drain(l, ttl, map[], n, 0.0, ip);
    AnswersAppend(l, ttl, map[], Requests(n, 0.0, ip), [Cleanup(again)] + Requests(n, again, ip));
    AnswersAppend(l, ttl, map[], Requests(n, 0.0, ip), Requests(n, again, ip));
    var evicted := Step(l, ttl, drained, Cleanup(again));
    assert ([Cleanup(again)] + Requests(n, again, ip))[1..] == Requests(n, again, ip);
    assert ip !in evicted;
    Drain(l, ttl, evicted, n, again, ip);
    Overdraw(l, ttl, drained, n, again, ip);
  }

  lemma {:induction false} OrderedAppend(a: seq<Call>, b: seq<Call>, from: real, to: real)
    requires Ordered(a, from) && from <= to && (forall c | c in a :: c.at <= to) && Ordered(b, to)
    ensures Ordered(a + b, from)
    decreases |a|
  {
    if a == [] {
      assert a + b == b;
      if b != [] {
        assert Ordered(b[1..], b[0].at);
      }
    } else {
      assert (a + b)[0] == a[0] && (a + b)[1..] == a[1..] + b;
      OrderedAppend(a[1..], b, a[0].at, to);
    }
  }

  lemma {:induction false} RequestsOrdered(n: nat, at: real, ip: string, from: real)
    requires from <= at
    ensures Ordered(Requests(n, at, ip), from) && WithoutCleanups(Requests(n, at, ip)) == Requests(n, at, ip)
    decreases n
  {
    if n > 0 {
      assert Requests(n, at, ip)[1..] == Requests(n - 1, at, ip);
      RequestsOrdered(n - 1, at, ip, at);
    }
  }

  lemma {:induction false} WithoutAppend(a: seq<Call>, b: seq<Call>)
    ensures WithoutCleanups(a + b) == WithoutCleanups(a) + WithoutCleanups(b)
    decreases |a|
  {
    if a == [] {
      assert a + b == b;
    } else {
      assert (a + b)[0] == a[0] && (a + b)[1..] == a[1..] + b;
      WithoutAppend(a[1..], b);
    }
  }

  /** A moment when the entry is evicted and the bucket is not yet full. */
  lemma TooSoon(l: Limits, ttl: real) returns (again: real)
    requires l.rate > 0.0 && Gain(l, ttl) < l.burst as real
    ensures ttl < again && Gain(l, again) < l.burst as real
  {
    var full := l.burst as real / l.rate;
    again := (ttl + full) / 2.0;
    assert Gain(l, full) == l.burst as real;
    GainSplits(l, ttl, full, again + again);
    GainSplits(l, again, again, again + again);
    if again <= ttl {
      GainGrows(l, again, ttl);
    }
  }

  lemma SlowRefillIsARun(n: nat, again: real)
    requires again >= 0.0
    ensures
      var calls := Requests(n, 0.0, "") + ([Cleanup(again)] + Requests(n, again, ""));
      Ordered(calls, 0.0) && WithoutCleanups(calls) == Requests(n, 0.0, "") + Requests(n, again, "")
  {
    var first, second := Requests(n, 0.0, ""), Requests(n, again, "");
    RequestsOrdered(n, 0.0, "", 0.0);
    RequestsOrdered(n, again, "", again);
    assert ([Cleanup(again)] + second)[1..] == second;
    OrderedAppend(first, [Cleanup(again)] + second, 0.0, again);
    WithoutAppend(first, [Cleanup(again)] + second);
  }

  /** No run's answers depend on its cleanups. */
  ghost predicate Unobservable(l: Limits, ttl: real) {
    forall calls | Ordered(calls, 0.0) ::
      Answers(l, ttl, map[], calls) == Answers(l, ttl, map[], WithoutCleanups(calls))
  }

  /** Eviction is harmless for exactly the limits whose bucket refills within ttl. */
  lemma EvictionUnobservableExactly(l: Limits, ttl: real)
    requires l.rate > 0.0 && ttl >= 0.0
    ensures Unobservable(l, ttl) <==> l.rate * ttl >= l.burst as real
  {
    assert Gain(l, ttl) == l.rate * ttl;
    hide Gain, Answers, Ordered, WithoutCleanups;
    if Gain(l, ttl) >= l.burst as real {
      forall calls | Ordered(calls, 0.0)
        ensures Answers(l, ttl, map[], calls) == Answers(l, ttl, map[], WithoutCleanups(calls))
      {
        EvictionIsUnobservable(l, ttl, calls, 0.0);
      }
    } else {
      var again := TooSoon(l, ttl);
      var calls := Requests(l.burst, 0.0, "") + ([Cleanup(again)] + Requests(l.burst, again, ""));
      SlowRefillShows(l, ttl, calls, again, "");
      SlowRefillIsARun(l.burst, again);
    }
  }

  // ------------------------------------------------------------ window bound

  function Admitted(l: Limits, ttl: real, entries: Entries, calls: seq<Call>, ip: string): nat
    decreases |calls|
  {
    if calls == [] then 0
    else
      var c := calls[0];
      (if c.Request? && c.ip == ip && Admits(l, entries, ip, c.at) then 1 else 0) +
      Admitted(l, ttl, Step(l, ttl, entries, c), calls[1..], ip)
  }

  predicate Within(calls: seq<Call>, from: real, to: real) {
    from <= to && Ordered(calls, from) && forall c | c in calls :: c.at <= to
  }

  lemma LevelGrows(l: Limits, entries: Entries, ip: string, now: real, later: real)
    requires l.rate >= 0.0 && Valid(l, entries, now) && now <= later
    ensures 0.0 <= Level(l, entries, ip, later) <= Level(l, entries, ip, now) + Gain(l, later - now)
  {
    hide Gain;
    GainGrows(l, 0.0, later - now);
    if ip in entries {
      GainGrows(l, 0.0, now - entries[ip].last);
      GainSplits(l, now - entries[ip].last, later - now, later - entries[ip].last);
    }
  }

  /** A step takes from the address what it admits for it, and adds nothing. */
  lemma StepSpends(l: Limits, ttl: real, entries: Entries, c: Call, ip: string)
    requires RefillsWithin(l, ttl) && Valid(l, entries, c.at)
    ensures Level(l, Step(l, ttl, entries, c), ip, c.at) ==
      Level(l, entries, ip, c.at) - (if c.Request? && c.ip == ip && Admits(l, entries, ip, c.at) then 1.0 else 0.0)
  {
    hide Gain;
    if c.Cleanup? && ip in entries && ip !in Evicted(entries, c.at - ttl) {
      EvictedWasFull(l, ttl, entries, ip, c.at);
    }
    if c.Request? && c.ip == ip {
      if Admits(l, entries, ip, c.at) {
        TakesOne(l, entries, ip, c.at);
      } else {
        TouchKeepsLevel(l, entries, ip, c.at);
      }
    }
  }

  /** Tokens are conserved: what was admitted came from the bucket or from refilling. */
  lemma {:induction false} Conserved(l: Limits, ttl: real, entries: Entries, calls: seq<Call>, ip: string, now: real,
                                     to: real)
    requires RefillsWithin(l, ttl) && Valid(l, entries, now) && Within(calls, now, to)
    ensures Valid(l, After(l, ttl, entries, calls), to)
    ensures Admitted(l, ttl, entries, calls, ip) as real + Level(l, After(l, ttl, entries, calls), ip, to) <=
      Level(l, entries, ip, now) + Gain(l, to - now)
    decreases |calls|
  {
    hide Level, Valid, Admits, Gain;
    if calls == [] {
      LevelGrows(l, entries, ip, now, to);
      StillValid(l, entries, now, to);
    } else {
      var c := calls[0];
      assert c in calls;
      LevelGrows(l, entries, ip, now, c.at);
      StepKeepsValid(l, ttl, entries, c, now);
      StillValid(l, entries, now, c.at);
      StepSpends(l, ttl, entries, c, ip);
      Conserved(l, ttl, Step(l, ttl, entries, c), calls[1..], ip, c.at, to);
      GainSplits(l, c.at - now, to - c.at, to - now);
    }
  }

  /** In every run, and every window of it of length w, an address is admitted at most
      burst + rate * w times, across evictions and new entries. */
  lemma WindowBound(l: Limits, ttl: real, before: seq<Call>, window: seq<Call>, ip: string, start: real, from: real,
                    to: real)
    requires RefillsWithin(l, ttl)
    requires Within(before, start, from) && Within(window, from, to)
    ensures Admitted(l, ttl, After(l, ttl, map[], before), window, ip) as real <= l.burst as real + l.rate * (to - from)
  {
    hide Level, Valid, Within;
    assert Gain(l, to - from) == l.rate * (to - from);
    EmptyValid(l, start);
    Conserved(l, ttl, map[], before, ip, start, from);
    var entries := After(l, ttl, map[], before);
    Conserved(l, ttl, entries, window, ip, from, to);
    LevelGrows(l, After(l, ttl, entries, window), ip, to, to);
    AtMostFull(l, entries, ip, from);
  }

  lemma EmptyValid(l: Limits, now: real)
    ensures Valid(l, map[], now)
  {}

  lemma AtMostFull(l: Limits, entries: Entries, ip: string, now: real)
    ensures Level(l, entries, ip, now) <= l.burst as real
  {}

  // ------------------------------------------------------------ lower bounds

  /** At one moment an address is admitted exactly as often as its bucket holds tokens. */
  lemma {:induction false} BurstExactly(l: Limits, ttl: real, entries: Entries, n: nat, at: real, ip: string)
    requires Level(l, entries, ip, at) >= 0.0
    ensures
      var tokens := Level(l, entries, ip, at).Floor;
      Admitted(l, ttl, entries, Requests(n, at, ip), ip) == if n <= tokens then n else tokens
    decreases n
  {
    hide Level;
    if n > 0 {
      assert Requests(n, at, ip)[1..] == Requests(n - 1, at, ip);
      AtMostFull(l, entries, ip, at);
      if Admits(l, entries, ip, at) {
        TakesOne(l, entries, ip, at);
      } else {
        TouchKeepsLevel(l, entries, ip, at);
      }
      BurstExactly(l, ttl, Step(l, ttl, entries, Request(at, ip)), n - 1, at, ip);
    }
  }

  /** The sustained rate: after any run, an address is admitted again once the time for one
      token has passed. */
  lemma SteadyIsAdmitted(l: Limits, ttl: real, before: seq<Call>, ip: string, start: real, from: real, at: real)
    requires RefillsWithin(l, ttl) && Within(before, start, from) && l.burst >= 1
    requires from <= at && l.rate * (at - from) >= 1.0
    ensures Admits(l, After(l, ttl, map[], before), ip, at)
  {
    hide Level, Valid, Within;
    EmptyValid(l, start);
    Conserved(l, ttl, map[], before, ip, start, from);
    GainedOne(l, After(l, ttl, map[], before), ip, from, at);
  }

  lemma GainedOne(l: Limits, entries: Entries, ip: string, from: real, at: real)
    requires l.rate >= 0.0 && l.burst >= 1 && Valid(l, entries, from) && from <= at && Gain(l, at - from) >= 1.0
    ensures Level(l, entries, ip, at) >= 1.0
  {
    hide Gain;
    if ip in entries {
      GainGrows(l, at - from, at - entries[ip].last);
    }
  }

  // ----------------------------------------------------------- configuration

  const CLEANUP_TTL: real := 900.0

  function LoginLimits(rpm: nat): Limits {
    Limits(rpm as real / 60.0, 5)
  }

  function TokenLimits(rpm: nat): Limits {
    Limits(rpm as real / 60.0, 10)
  }

  function GlobalLimits(rpm: nat): Limits {
    Limits(rpm as real / 60.0, rpm / 4)
  }

  /** The limiters that config.go's bounds let main.go build. */
  predicate Configured(l: Limits, rpm: nat) {
    (1 <= rpm <= 600 && l == LoginLimits(rpm)) ||
    (1 <= rpm <= 6000 && (l == TokenLimits(rpm) || l == GlobalLimits(rpm)))
  }

  /** Every admitted configuration refills within the cleanup's 15 minutes. */
  lemma ConfiguredRefills(l: Limits, rpm: nat)
    requires Configured(l, rpm)
    ensures l.rate > 0.0 && l.rate * CLEANUP_TTL == 15.0 * rpm as real && l.rate * CLEANUP_TTL >= l.burst as real
  {}

  /** The two promises for the limiters as configured. */
  lemma ConfiguredLimiter(l: Limits, rpm: nat, before: seq<Call>, window: seq<Call>, ip: string, start: real,
                          from: real, to: real)
    requires Configured(l, rpm) && Within(before, start, from) && Within(window, from, to)
    ensures Answers(l, CLEANUP_TTL, map[], before) == Answers(l, CLEANUP_TTL, map[], WithoutCleanups(before))
    ensures
      var entries := After(l, CLEANUP_TTL, map[], before);
      Admitted(l, CLEANUP_TTL, entries, window, ip) as real <= l.burst as real + l.rate * (to - from)
  {
    hide Configured, After, Answers, WithoutCleanups, Admitted, Ordered;
    ConfiguredRefills(l, rpm);
    EvictionIsUnobservable(l, CLEANUP_TTL, before, start);
    WindowBound(l, CLEANUP_TTL, before, window, ip, start, from, to);
  }

  /** What a new address gets at once, in figures: 5 logins, 10 token calls, and a quarter of
      the minute's requests in all; and then one more after each 60 / RPM seconds. */
  lemma ConfiguredBursts(l: Limits, rpm: nat, n: nat, at: real, ip: string)
    requires Configured(l, rpm)
    ensures
      var burst := if l == LoginLimits(rpm) then 5 else if l == TokenLimits(rpm) then 10 else rpm / 4;
      Admitted(l, CLEANUP_TTL, map[], Requests(n, at, ip), ip) == if n <= burst then n else burst
    ensures forall before, start, from, later |
      Within(before, start, from) && from <= later && rpm as real * (later - from) >= 60.0 && l != GlobalLimits(rpm) ::
      Admits(l, After(l, CLEANUP_TTL, map[], before), ip, later)
  {
    hide Admitted, After, Within;
    BurstExactly(l, CLEANUP_TTL, map[], n, at, ip);
    forall before, start, from, later |
      Within(before, start, from) && from <= later && rpm as real * (later - from) >= 60.0 && l != GlobalLimits(rpm)
      ensures Admits(l, After(l, CLEANUP_TTL, map[], before), ip, later)
    {
      ConfiguredRefills(l, rpm);
      PerMinute(rpm, later - from);
      SteadyIsAdmitted(l, CLEANUP_TTL, before, ip, start, from, later);
    }
  }

  lemma PerMinute(rpm: nat, time: real)
    requires rpm as real * time >= 60.0
    ensures rpm as real / 60.0 * time >= 1.0
  {}

  /** The global burst is the integer quotient RPM / 4, so an RPM of 1 to 3, which the
      configuration admits, refuses every external request; from 4 on a new address is admitted. */
  lemma GlobalAdmitsExactly(rpm: nat)
    ensures (exists entries, ip, now :: Admits(GlobalLimits(rpm), entries, ip, now)) <==> rpm >= 4
  {
    if rpm >= 4 {
      assert Admits(GlobalLimits(rpm), map[], "", 0.0);
    }
  }
}
