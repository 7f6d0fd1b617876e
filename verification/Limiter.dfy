/**
 The per-source token bucket in front of the handshake (`handshake_limiter.go`):
 a bounded table whose idle entries are dropped, and with them what their
 sources had already used up.

 Times are seconds and tokens real numbers, so rounding plays no part.
 */
module Limiter {
  const MAX_SOURCES: nat := 4096
  const IDLE: real := 60.0

  datatype Bucket = Bucket(tokens: real, seen: real)
  datatype Call = Call(key: string, now: real)

  type Sources = map<string, Bucket>

  // ----------------------------------------------------------- specification

  function Min(a: real, b: real): real {
    if a <= b then a else b
  }

  function Refreshed(sources: Sources, now: real): Sources {
    map k | k in sources && now - sources[k].seen < IDLE :: sources[k]
  }

  /** What the rate gives in `elapsed` seconds. */
  function Earned(rate: real, elapsed: real): real {
    elapsed * rate
  }

  function Refilled(rate: real, burst: real, b: Bucket, now: real): Bucket {
    Bucket(if now - b.seen > 0.0 then Min(burst, b.tokens + Earned(rate, now - b.seen)) else b.tokens, now)
  }

  /** The outcome of taking one token from `b` and storing it. */
  function Spent(sources: Sources, key: string, b: Bucket): (Sources, bool) {
    if b.tokens < 1.0 then (sources[key := b], false) else (sources[key := b.(tokens := b.tokens - 1.0)], true)
  }

  function Allowed(rate: real, burst: real, sources: Sources, c: Call): (Sources, bool) {
    if c.key in sources then Spent(sources, c.key, Refilled(rate, burst, sources[c.key], c.now))
    else
      var kept := Refreshed(sources, c.now);
      if |kept| >= MAX_SOURCES then (kept, false) else Spent(kept, c.key, Bucket(burst, c.now))
  }

  function After(rate: real, burst: real, sources: Sources, calls: seq<Call>): Sources
    decreases |calls|
  {
    if calls == [] then sources else After(rate, burst, Allowed(rate, burst, sources, calls[0]).0, calls[1..])
  }

  /** How many of `calls` come from `key` and are let through. */
  function Granted(rate: real, burst: real, sources: Sources, calls: seq<Call>, key: string): nat
    decreases |calls|
  {
    if calls == [] then 0
    else
      var (next, ok) := Allowed(rate, burst, sources, calls[0]);
      (if ok && calls[0].key == key then 1 else 0) + Granted(rate, burst, next, calls[1..], key)
  }

  // ------------------------------------------------------------- source form

  class HandshakeLimiter {
    const rate: real
    const burst: real
    var sources: Sources

    constructor (rate: nat, burst: nat)
      ensures sources == map[] && this.rate == rate as real && this.burst == burst as real
    {
      this.rate, this.burst, sources := rate as real, burst as real, map[];
    }

    method Allow(key: string, now: real) returns (ok: bool)
      modifies this
      ensures (sources, ok) == Allowed(rate, burst, old(sources), Call(key, now))
    {
      var bucket: Bucket;
      if key !in sources {
        DropIdle(now);
        if |sources| >= MAX_SOURCES {
          return false;
        }
        bucket := Bucket(burst, now);
      } else {
        bucket := sources[key];
        var elapsed := now - bucket.seen;
        if elapsed > 0.0 {
          bucket := bucket.(tokens := Min(burst, bucket.tokens + elapsed * rate));
        }
        bucket := bucket.(seen := now);
      }
      if bucket.tokens < 1.0 {
        sources := sources[key := bucket];
        return false;
      }
      bucket := bucket.(tokens := bucket.tokens - 1.0);
      sources := sources[key := bucket];
      return true;
    }

    /** The eviction loop of `allow`. */
    method DropIdle(now: real)
      modifies this`sources
      ensures sources == Refreshed(old(sources), now)
    {
      var left := sources.Keys;
      while left != {}
        invariant left <= old(sources).Keys
        invariant forall k :: k in sources <==> k in old(sources) && (k in left || now - old(sources)[k].seen < IDLE)
        invariant forall k :: k in sources ==> sources[k] == old(sources)[k]
        decreases |left|
      {
        var k :| k in left;
        left := left - {k};
        if now - sources[k].seen >= IDLE {
          sources := sources - {k};
        }
      }
    }
  }

  // --------------------------------------------------------------- invariant

  ghost predicate Ordered(calls: seq<Call>) {
    forall i, j :: 0 <= i < j < |calls| ==> calls[i].now <= calls[j].now
  }

  /** Buckets hold between nothing and a burst and were seen no later than `now`. */
  ghost predicate Sane(burst: real, sources: Sources, now: real) {
    && |sources| <= MAX_SOURCES
    && forall k :: k in sources ==> 0.0 <= sources[k].tokens <= burst && sources[k].seen <= now
  }

  /** What `key` could use at once at time `now`; a source without an entry has a full burst. */
  function Credit(rate: real, burst: real, sources: Sources, key: string, now: real): real {
    if key in sources then Min(burst, sources[key].tokens + Earned(rate, now - sources[key].seen)) else burst
  }

  lemma Earnings(rate: real, a: real, b: real)
    requires rate >= 0.0
    ensures Earned(rate, 0.0) == 0.0 && Earned(rate, a + b) == Earned(rate, a) + Earned(rate, b)
    ensures a <= b ==> Earned(rate, a) <= Earned(rate, b)
    ensures 0.0 <= b ==> 0.0 <= Earned(rate, b)
  {
  }

  lemma SaneStep(rate: real, burst: real, sources: Sources, c: Call)
    requires rate >= 0.0 && burst >= 0.0 && Sane(burst, sources, c.now)
    ensures Sane(burst, Allowed(rate, burst, sources, c).0, c.now)
  {
    hide Earned, Refreshed, Sane;
    SaneRefreshed(burst, sources, c.now);
    if c.key in sources {
      CreditIsRefill(rate, burst, sources, c.key, c.now);
      CreditIsSane(rate, burst, sources, c.key, c.now);
      SaneSpent(burst, sources, c.key, Refilled(rate, burst, sources[c.key], c.now), c.now);
    } else if |Refreshed(sources, c.now)| < MAX_SOURCES {
      SaneSpent(burst, Refreshed(sources, c.now), c.key, Bucket(burst, c.now), c.now);
    }
  }

  lemma SaneRefreshed(burst: real, sources: Sources, now: real)
    requires Sane(burst, sources, now)
    ensures Sane(burst, Refreshed(sources, now), now)
  {
    var kept := Refreshed(sources, now);
    assert sources.Keys == kept.Keys + (sources.Keys - kept.Keys);
  }

  lemma SaneSpent(burst: real, sources: Sources, key: string, b: Bucket, now: real)
    requires Sane(burst, sources, now) && 0.0 <= b.tokens <= burst && b.seen <= now
    requires key in sources || |sources| < MAX_SOURCES
    ensures Sane(burst, Spent(sources, key, b).0, now)
  {
  }

  lemma SaneLater(burst: real, sources: Sources, now: real, later: real)
    requires Sane(burst, sources, now) && now <= later
    ensures Sane(burst, sources, later)
  {
  }

  /** Dropping an idle entry gives its source nothing it would not have earned by
      then, provided a minute refills a bucket. */
  lemma EvictionIsNeutral(rate: real, burst: real, sources: Sources, key: string, now: real)
    requires rate >= 0.0 && Earned(rate, IDLE) >= burst >= 0.0 && Sane(burst, sources, now)
    ensures Credit(rate, burst, Refreshed(sources, now), key, now) == Credit(rate, burst, sources, key, now)
  {
    hide Earned;
    if key in sources {
      Earnings(rate, IDLE, now - sources[key].seen);
    }
  }

  lemma SpentCredit(rate: real, burst: real, sources: Sources, key: string, b: Bucket, k: string)
    requires b.tokens <= burst
    ensures var r := Spent(sources, key, b);
            Credit(rate, burst, r.0, k, b.seen) ==
            if k != key then Credit(rate, burst, sources, k, b.seen) else if r.1 then b.tokens - 1.0 else b.tokens
  {
    assert Earned(rate, b.seen - b.seen) == 0.0;
  }

  /** A call costs its own source one token when it is let through and nobody else anything. */
  lemma CallCosts(rate: real, burst: real, sources: Sources, c: Call, key: string)
    requires rate >= 0.0 && Earned(rate, IDLE) >= burst >= 0.0 && Sane(burst, sources, c.now)
    ensures var r := Allowed(rate, burst, sources, c);
            Credit(rate, burst, r.0, key, c.now) ==
            Credit(rate, burst, sources, key, c.now) - if r.1 && c.key == key then 1.0 else 0.0
  {
    hide Spent, Sane, Earned, Credit;
    if c.key in sources {
      CreditIsRefill(rate, burst, sources, c.key, c.now);
      SpentCredit(rate, burst, sources, c.key, Refilled(rate, burst, sources[c.key], c.now), key);
    } else {
      EvictionIsNeutral(rate, burst, sources, key, c.now);
      FullCredit(rate, burst, Refreshed(sources, c.now), c.key, c.now);
      SpentCredit(rate, burst, Refreshed(sources, c.now), c.key, Bucket(burst, c.now), key);
    }
  }

  lemma FullCredit(rate: real, burst: real, sources: Sources, key: string, now: real)
    requires key !in sources
    ensures Credit(rate, burst, sources, key, now) == burst
  {
  }

  lemma CreditIsRefill(rate: real, burst: real, sources: Sources, key: string, now: real)
    requires key in sources && Sane(burst, sources, now)
    ensures var b := Refilled(rate, burst, sources[key], now);
            b.tokens == Credit(rate, burst, sources, key, now) && b.tokens <= burst && b.seen == now
  {
    if now == sources[key].seen {
      assert Earned(rate, now - sources[key].seen) == 0.0;
    }
  }

  lemma CreditGrows(rate: real, burst: real, sources: Sources, key: string, now: real, later: real)
    requires rate >= 0.0 && now <= later
    ensures Credit(rate, burst, sources, key, later)
         <= Credit(rate, burst, sources, key, now) + Earned(rate, later - now)
  {
    hide Earned;
    Earnings(rate, 0.0, later - now);
    if key in sources {
      var seen := sources[key].seen;
      Earnings(rate, now - seen, later - now);
      assert (now - seen) + (later - now) == later - seen;
    }
  }

  lemma CreditIsSane(rate: real, burst: real, sources: Sources, key: string, now: real)
    requires rate >= 0.0 && burst >= 0.0 && Sane(burst, sources, now)
    ensures 0.0 <= Credit(rate, burst, sources, key, now) <= burst
  {
    hide Earned;
    if key in sources {
      Earnings(rate, 0.0, now - sources[key].seen);
    }
  }

  // ----------------------------------------------------------------- theorems

  /** The table is bounded and its buckets sane after any calls in the order of time. */
  lemma {:induction false} TableBounded(rate: real, burst: real, sources: Sources, calls: seq<Call>, start: real)
    requires rate >= 0.0 && burst >= 0.0 && Sane(burst, sources, start) && Ordered(calls)
    requires calls != [] ==> start <= calls[0].now
    ensures |After(rate, burst, sources, calls)| <= 4096
    ensures Sane(burst, After(rate, burst, sources, calls), if calls == [] then start else calls[|calls| - 1].now)
    decreases |calls|
  {
    hide Sane, Allowed;
    if calls == [] {
      SaneFits(burst, sources, start);
    } else {
      SaneLater(burst, sources, start, calls[0].now);
      SaneStep(rate, burst, sources, calls[0]);
      TableBounded(rate, burst, Allowed(rate, burst, sources, calls[0]).0, calls[1..], calls[0].now);
    }
  }

  lemma SaneEmpty(burst: real, now: real)
    ensures Sane(burst, map[], now)
  {
  }

  lemma SaneFits(burst: real, sources: Sources, now: real)
    requires Sane(burst, sources, now)
    ensures |sources| <= MAX_SOURCES
  {
  }

  function Span(calls: seq<Call>): real
    requires calls != []
  {
    calls[|calls| - 1].now - calls[0].now
  }

  lemma {:induction false} GrantsWithinCredit(rate: real, burst: real, sources: Sources, calls: seq<Call>, key: string)
    requires rate >= 0.0 && Earned(rate, IDLE) >= burst >= 0.0 && calls != [] && Ordered(calls)
    requires Sane(burst, sources, calls[0].now)
    ensures Granted(rate, burst, sources, calls, key) as real
         <= Credit(rate, burst, sources, key, calls[0].now) + Earned(rate, Span(calls))
    decreases |calls|
  {
    hide Sane, Allowed, Credit, Granted, Earned;
    var next := Allowed(rate, burst, sources, calls[0]).0;
    var rest := calls[1..];
    SaneStep(rate, burst, sources, calls[0]);
    CallCosts(rate, burst, sources, calls[0], key);
    GrantedFirst(rate, burst, sources, calls, key);
    CreditIsSane(rate, burst, next, key, calls[0].now);
    if rest == [] {
      Earnings(rate, 0.0, 0.0);
      assert Granted(rate, burst, next, rest, key) == 0;
    } else {
      SaneLater(burst, next, calls[0].now, rest[0].now);
      GrantsWithinCredit(rate, burst, next, rest, key);
      CreditGrows(rate, burst, next, key, calls[0].now, rest[0].now);
      Earnings(rate, rest[0].now - calls[0].now, Span(rest));
      assert Span(calls) == (rest[0].now - calls[0].now) + Span(rest);
    }
  }

  lemma GrantedFirst(rate: real, burst: real, sources: Sources, calls: seq<Call>, key: string)
    requires calls != []
    ensures var (next, ok) := Allowed(rate, burst, sources, calls[0]);
            && Granted(rate, burst, sources, calls, key)
               == (if ok && calls[0].key == key then 1 else 0) + Granted(rate, burst, next, calls[1..], key)
            && Granted(rate, burst, next, [], key) == 0
  {
  }

  /** In the stretch `window` after the calls `before`, `key` gets at most a burst
      plus what the rate gives in that time. */
  ghost predicate Within(rate: real, burst: real, before: seq<Call>, window: seq<Call>, key: string) {
    Ordered(before + window) && window != [] ==>
      Granted(rate, burst, After(rate, burst, map[], before), window, key) as real <= burst + Earned(rate, Span(window))
  }

  ghost predicate RateBound(rate: real, burst: real) {
    forall before: seq<Call>, window: seq<Call>, key: string :: Within(rate, burst, before, window, key)
  }

  /** Despite eviction the bound holds, and it does exactly when an idle minute refills a bucket. */
  lemma RateBoundExactly(rate: nat, burst: nat)
    ensures RateBound(rate as real, burst as real) <==> rate * 60 >= burst
  {
    hide Within;
    if rate * 60 >= burst {
      var r, b := rate as real, burst as real;
      assert Earned(r, IDLE) == (rate * 60) as real;
      forall before: seq<Call>, window: seq<Call>, key: string ensures Within(r, b, before, window, key) {
        WindowBound(r, b, before, window, key);
      }
    } else {
      EvictionResets(rate, burst);
    }
  }

  lemma WindowBound(rate: real, burst: real, before: seq<Call>, window: seq<Call>, key: string)
    requires rate >= 0.0 && Earned(rate, IDLE) >= burst >= 0.0
    ensures Within(rate, burst, before, window, key)
  {
    hide Granted, After, Earned, Sane;
    if Ordered(before + window) && window != [] {
      HistoryIsSane(rate, burst, before, window);
      var s := After(rate, burst, map[], before);
      GrantsWithinCredit(rate, burst, s, window, key);
      CreditIsSane(rate, burst, s, key, window[0].now);
    }
  }

  lemma HistoryIsSane(rate: real, burst: real, before: seq<Call>, window: seq<Call>)
    requires rate >= 0.0 && burst >= 0.0 && Ordered(before + window) && window != []
    ensures Ordered(window) && Sane(burst, After(rate, burst, map[], before), window[0].now)
  {
    hide Granted, After, Earned, Sane;
    SaneEmpty(burst, if before == [] then window[0].now else before[0].now);
    var all := before + window;
    assert forall i :: 0 <= i < |window| ==> window[i] == all[|before| + i];
    assert forall i :: 0 <= i < |before| ==> before[i] == all[i];
    var start := if before == [] then window[0].now else before[0].now;
    TableBounded(rate, burst, map[], before, start);
    var s := After(rate, burst, map[], before);
    if before != [] {
      assert before[|before| - 1] == all[|before| - 1] && window[0] == all[|before|];
    }
    SaneLater(burst, s, if before == [] then start else before[|before| - 1].now, window[0].now);
  }

  // -------------------------------------------------------- the bound is exact

  function Burst(key: string, now: real, n: nat): seq<Call> {
    if n == 0 then [] else [Call(key, now)] + Burst(key, now, n - 1)
  }

  /** `n` calls at one moment use up `n` tokens and are all let through. */
  lemma {:induction false} BurstDrains(rate: real, burst: real, sources: Sources, key: string, now: real, n: nat)
    requires key in sources && sources[key].seen == now && sources[key].tokens >= n as real
    ensures Granted(rate, burst, sources, Burst(key, now, n), key) == n
    ensures After(rate, burst, sources, Burst(key, now, n))
         == sources[key := Bucket(sources[key].tokens - n as real, now)]
  {
    if n == 0 {
      assert sources[key].tokens - 0.0 == sources[key].tokens;
      assert sources[key := Bucket(sources[key].tokens - n as real, now)] == sources;
    } else {
      var calls := Burst(key, now, n);
      assert calls[0] == Call(key, now) && calls[1..] == Burst(key, now, n - 1);
      var next := Allowed(rate, burst, sources, calls[0]).0;
      assert next == sources[key := Bucket(sources[key].tokens - 1.0, now)];
      BurstDrains(rate, burst, next, key, now, n - 1);
      assert (sources[key].tokens - 1.0) - (n - 1) as real == sources[key].tokens - n as real;
      var left := Bucket(sources[key].tokens - n as real, now);
      assert next[key := left] == sources[key := left];
    }
  }

  /** A source without an entry has a whole burst, if there is room for it. */
  lemma FreshBurst(rate: real, burst: nat, sources: Sources, key: string, now: real)
    requires burst >= 1 && key !in sources && |Refreshed(sources, now)| < MAX_SOURCES
    ensures Granted(rate, burst as real, sources, Burst(key, now, burst), key) == burst
    ensures After(rate, burst as real, sources, Burst(key, now, burst))
         == Refreshed(sources, now)[key := Bucket(0.0, now)]
  {
    var b := burst as real;
    var calls := Burst(key, now, burst);
    assert calls[0] == Call(key, now) && calls[1..] == Burst(key, now, burst - 1);
    var kept := Refreshed(sources, now);
    var next := kept[key := Bucket(b - 1.0, now)];
    assert Allowed(rate, b, sources, calls[0]) == (next, true);
    BurstDrains(rate, b, next, key, now, burst - 1);
    assert (b - 1.0) - (burst - 1) as real == 0.0;
    assert next[key := Bucket(0.0, now)] == kept[key := Bucket(0.0, now)];
  }

  lemma {:induction false} Appended(rate: real, burst: real, sources: Sources, a: seq<Call>, b: seq<Call>, key: string)
    ensures Granted(rate, burst, sources, a + b, key) ==
            Granted(rate, burst, sources, a, key) + Granted(rate, burst, After(rate, burst, sources, a), b, key)
    ensures After(rate, burst, sources, a + b) == After(rate, burst, After(rate, burst, sources, a), b)
    decreases |a|
  {
    hide Allowed;
    if a == [] {
      assert a + b == b;
    } else {
      assert (a + b)[0] == a[0] && (a + b)[1..] == a[1..] + b;
      Appended(rate, burst, Allowed(rate, burst, sources, a[0]).0, a[1..], b, key);
    }
  }

  lemma {:induction false} BurstTimes(key: string, now: real, n: nat)
    ensures |Burst(key, now, n)| == n && forall i :: 0 <= i < n ==> Burst(key, now, n)[i].now == now
  {
    if n > 0 {
      BurstTimes(key, now, n - 1);
    }
  }

  /** A burst, a minute's pause that another source ends, and a second whole burst. */
  lemma EvictionResets(rate: nat, burst: nat)
    requires rate * 60 < burst
    ensures !RateBound(rate as real, burst as real)
  {
    hide Granted, After, Burst, Refreshed;
    var r, b := rate as real, burst as real;
    var window := BurstWindow(burst);
    BurstWindowShape(burst);
    assert [] + window == window;
    BurstWindowGrants(r, burst);
    AfterNothing(r, b, map[]);
    assert Earned(r, IDLE) == (rate * 60) as real;
    assert !Within(r, b, [], window, "a");
  }

  function BurstWindow(burst: nat): seq<Call> {
    Burst("a", 0.0, burst) + ([Call("b", IDLE)] + Burst("a", IDLE, burst))
  }

  lemma BurstWindowShape(burst: nat)
    requires burst >= 1
    ensures Ordered(BurstWindow(burst)) && BurstWindow(burst) != [] && Span(BurstWindow(burst)) == IDLE
  {
    hide Burst;
    BurstTimes("a", 0.0, burst);
    BurstTimes("a", IDLE, burst);
  }

  lemma BurstWindowGrants(rate: real, burst: nat)
    requires burst >= 1
    ensures Granted(rate, burst as real, map[], BurstWindow(burst), "a") == 2 * burst
  {
    var empty: Sources := map[];
    assert Refreshed(empty, 0.0) == empty;
    FreshBurst(rate, burst, empty, "a", 0.0);
    SecondBurst(rate, burst);
    hide Granted, After, Burst;
    Appended(rate, burst as real, empty, Burst("a", 0.0, burst), [Call("b", IDLE)] + Burst("a", IDLE, burst), "a");
  }

  lemma AfterNothing(rate: real, burst: real, sources: Sources)
    ensures After(rate, burst, sources, []) == sources
  {
  }

  lemma SecondBurst(rate: real, burst: nat)
    requires burst >= 1
    ensures var calls := [Call("b", IDLE)] + Burst("a", IDLE, burst);
            Granted(rate, burst as real, map["a" := Bucket(0.0, 0.0)], calls, "a") == burst
  {
    var b := burst as real;
    var used: Sources := map["a" := Bucket(0.0, 0.0)];
    var reset: Sources := map["b" := Bucket(b - 1.0, IDLE)];
    var calls := [Call("b", IDLE)] + Burst("a", IDLE, burst);
    assert Refreshed(used, IDLE) == map[];
    assert Allowed(rate, b, used, calls[0]) == (reset, true);
    assert Refreshed(reset, IDLE) == reset;
    assert |reset| == 1;
    FreshBurst(rate, burst, reset, "a", IDLE);
    assert calls[1..] == Burst("a", IDLE, burst);
    GrantedFirst(rate, b, used, calls, "a");
  }

  // ----------------------------------------------------------- what is accepted

  /** A call is let through exactly when its source has a whole token's worth of credit,
      counting what it earned since it was last seen, and an entry or room for one among 4096. */
  lemma AllowedExactly(rate: real, burst: real, sources: Sources, c: Call)
    requires Sane(burst, sources, c.now)
    ensures Allowed(rate, burst, sources, c).1 <==>
              if c.key in sources then
                var earned := sources[c.key].tokens + (c.now - sources[c.key].seen) * rate;
                earned >= 1.0 && burst >= 1.0
              else burst >= 1.0 && |set k | k in sources && c.now - sources[k].seen < 60.0| < 4096
  {
    if c.key in sources {
      CreditIsRefill(rate, burst, sources, c.key, c.now);
    } else {
      var kept := Refreshed(sources, c.now);
      assert kept.Keys == set k | k in sources && c.now - sources[k].seen < 60.0;
    }
  }

  /** What a call leaves behind: its source as seen now with its credit less what it used,
      every other entry as it was, idle ones dropped only on behalf of a new source. */
  lemma CallLeaves(rate: real, burst: real, sources: Sources, c: Call)
    requires Sane(burst, sources, c.now)
    ensures var r := Allowed(rate, burst, sources, c);
            && (r.1 ==> c.key in r.0)
            && (c.key in r.0 ==>
                  && r.0[c.key].seen == c.now
                  && r.0[c.key].tokens == Credit(rate, burst, sources, c.key, c.now) - if r.1 then 1.0 else 0.0)
            && (forall k :: k != c.key ==>
                  (k in r.0 <==> k in sources && (c.key in sources || c.now - sources[k].seen < 60.0)))
            && (forall k :: k != c.key && k in r.0 ==> r.0[k] == sources[k])
  {
    if c.key in sources {
      CreditIsRefill(rate, burst, sources, c.key, c.now);
    }
  }
}
