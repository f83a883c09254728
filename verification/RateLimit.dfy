/**
  The two fixed-window limiters: the in-process dictionary, and the counter with
  an expiry. Each check is atomic and happens at one instant of a shared clock.
 */
module RateLimit {
  import opened Wrappers

  /** A reading of the monotonic clock. */
  type Time = real

  /** One call of `check`. */
  datatype Check = Check(at: Time, key: string, limit: int, window: int)

  const RATE_LIMITED := ApiError(429, "rate_limited")

  datatype Bucket = Bucket(count: nat, expiresAt: Time)

  // ---------------------------------------------------------------- in memory

  /** The bucket a check leaves in the dictionary. */
  function Touched(values: map<string, Bucket>, c: Check): Bucket {
    if c.key in values && c.at < values[c.key].expiresAt
    then values[c.key].(count := values[c.key].count + 1)
    else Bucket(1, c.at + c.window as real)
  }

  /** Runs checks in order; the result says for each whether it passed. */
  function RunMemory(values: map<string, Bucket>, checks: seq<Check>): seq<bool>
    decreases |checks|
  {
    if checks == [] then []
    else
      var bucket := Touched(values, checks[0]);
      [bucket.count <= checks[0].limit] + RunMemory(values[checks[0].key := bucket], checks[1..])
  }

  class InMemoryRateLimiter {
    var values: map<string, Bucket>

    constructor ()
      ensures values == map[]
    {
      values := map[];
    }

    method Check(c: Check) returns (raised: Option<ApiError>)
      modifies this
      ensures values == old(values)[c.key := Touched(old(values), c)]
      ensures raised == (if Touched(old(values), c).count <= c.limit then None else Some(ApiError(429, "rate_limited")))
    {
      var count, expiresAt := 0, c.at + c.window as real;
      if c.key in values {
        count, expiresAt := values[c.key].count, values[c.key].expiresAt;
      }
      if c.at >= expiresAt {
        count, expiresAt := 0, c.at + c.window as real;
      }
      count := count + 1;
      values := values[c.key := Bucket(count, expiresAt)];
      raised := if count > c.limit then Some(RATE_LIMITED) else None;
    }
  }

  // ---------------------------------------------------------------- counter with expiry

  /** A stored counter; without a deadline it never expires. */
  datatype Counter = Counter(count: nat, deadline: Option<Time>)

  predicate Live(store: map<string, Counter>, key: string, now: Time) {
    key in store && (store[key].deadline.None? || now < store[key].deadline.value)
  }

  /** INCR: a missing or expired key counts from zero and has no deadline. */
  function Incr(store: map<string, Counter>, key: string, now: Time): map<string, Counter> {
    if Live(store, key, now) then store[key := store[key].(count := store[key].count + 1)]
    else store[key := Counter(1, None)]
  }

  /** EXPIRE: sets the deadline, or deletes the key when the time to live is not positive. */
  function Expire(store: map<string, Counter>, key: string, now: Time, window: int): map<string, Counter>
    requires key in store
  {
    if window <= 0 then store - {key} else store[key := store[key].(deadline := Some(now + window as real))]
  }

  class ValkeyRateLimiter {
    var store: map<string, Counter>

    constructor ()
      ensures store == map[]
    {
      store := map[];
    }

    method Check(c: Check) returns (raised: Option<ApiError>)
      modifies this
      ensures store == AfterCounter(old(store), c)
      ensures raised ==
        (if Incr(old(store), c.key, c.at)[c.key].count <= c.limit then None else Some(ApiError(429, "rate_limited")))
    {
      store := Incr(store, c.key, c.at);
      var count := store[c.key].count;
      if count == 1 {
        store := Expire(store, c.key, c.at, c.window);
      }
      raised := if count > c.limit then Some(RATE_LIMITED) else None;
    }
  }

  function AfterCounter(store: map<string, Counter>, c: Check): map<string, Counter> {
    var store' := Incr(store, c.key, c.at);
    if store'[c.key].count == 1 then Expire(store', c.key, c.at, c.window) else store'
  }

  function RunCounter(store: map<string, Counter>, checks: seq<Check>): seq<bool>
    decreases |checks|
  {
    if checks == [] then []
    else
      [Incr(store, checks[0].key, checks[0].at)[checks[0].key].count <= checks[0].limit]
      + RunCounter(AfterCounter(store, checks[0]), checks[1..])
  }

  // ---------------------------------------------------------------- the two agree

  /** Checks happen in the order of a clock that has reached `now`. */
  predicate Timed(now: Time, checks: seq<Check>) {
    (forall i | 0 <= i < |checks| :: now <= checks[i].at)
    && (forall i, j | 0 <= i < j < |checks| :: checks[i].at <= checks[j].at)
  }

  /**
    From `now` on, a key counts in one limiter exactly when it counts in the other, with the same count and
    deadline.
   */
  ghost predicate SameBuckets(values: map<string, Bucket>, store: map<string, Counter>, now: Time) {
    && (forall key | key in store ::
          key in values && store[key] == Counter(values[key].count, Some(values[key].expiresAt)))
    && (forall key | key in values && key !in store :: values[key].expiresAt <= now)
    && (forall key | key in values :: values[key].count >= 1)
  }

  lemma OneCheckAgrees(values: map<string, Bucket>, store: map<string, Counter>, c: Check)
    requires SameBuckets(values, store, c.at)
    ensures Touched(values, c).count == Incr(store, c.key, c.at)[c.key].count
    ensures SameBuckets(values[c.key := Touched(values, c)], AfterCounter(store, c), c.at)
  {
  }

  lemma LaterBuckets(values: map<string, Bucket>, store: map<string, Counter>, now: Time, later: Time)
    requires SameBuckets(values, store, now) && now <= later
    ensures SameBuckets(values, store, later)
  {
  }

  lemma {:induction false} SameFrom(values: map<string, Bucket>, store: map<string, Counter>, now: Time,
                                    checks: seq<Check>)
    requires SameBuckets(values, store, now) && Timed(now, checks)
    ensures RunMemory(values, checks) == RunCounter(store, checks)
    decreases |checks|
  {
    if checks != [] {
      var c := checks[0];
      LaterBuckets(values, store, now, c.at);
      OneCheckAgrees(values, store, c);
      SameFrom(values[c.key := Touched(values, c)], AfterCounter(store, c), c.at, checks[1..]);
    }
  }

  /** The two limiters accept the same checks, for every timed sequence of keys, limits and windows. */
  lemma {:induction false} LimitersAgree(checks: seq<Check>)
    requires forall i, j | 0 <= i < j < |checks| :: checks[i].at <= checks[j].at
    ensures RunMemory(map[], checks) == RunCounter(map[], checks)
  {
    if checks != [] {
      SameFrom(map[], map[], checks[0].at, checks);
    }
  }

  // ---------------------------------------------------------------- how many checks pass

  /** The times at which a key is checked. */
  function Asked(checks: seq<Check>, key: string): seq<Time> {
    if checks == [] then []
    else if checks[0].key == key then [checks[0].at] + Asked(checks[1..], key)
    else Asked(checks[1..], key)
  }

  /** The times at which a key passes. */
  function Passing(values: map<string, Bucket>, checks: seq<Check>, key: string): seq<Time>
    decreases |checks|
  {
    if checks == [] then []
    else
      var bucket := Touched(values, checks[0]);
      var rest := Passing(values[checks[0].key := bucket], checks[1..], key);
      if checks[0].key == key && bucket.count <= checks[0].limit then [checks[0].at] + rest else rest
  }

  /** How many of the times lie in `[a, b)`. */
  function CountIn(times: seq<Time>, a: Time, b: Time): nat {
    if times == [] then 0 else (if a <= times[0] < b then 1 else 0) + CountIn(times[1..], a, b)
  }

  lemma CountFirst(t: Time, times: seq<Time>, a: Time, b: Time)
    ensures CountIn([t] + times, a, b) == (if a <= t < b then 1 else 0) + CountIn(times, a, b)
  {
    assert ([t] + times)[1..] == times;
  }

  function Min(a: nat, b: nat): nat {
    if a <= b then a else b
  }

  /** `key` is always checked with this limit and window. */
  predicate Uniform(checks: seq<Check>, key: string, limit: nat, window: nat) {
    forall i | 0 <= i < |checks| && checks[i].key == key :: checks[i].limit == limit && checks[i].window == window
  }

  /** The key has an unexpired window at `now`. */
  predicate Counting(values: map<string, Bucket>, key: string, now: Time) {
    key in values && now < values[key].expiresAt
  }

  /** How many more checks an unexpired window lets pass. */
  function Left(bucket: Bucket, limit: nat): nat {
    if bucket.count <= limit then limit - bucket.count else 0
  }

  /** The most checks that pass in one window length. */
  function Most(limit: nat): nat {
    if limit == 0 then 0 else 2 * limit - 1
  }

  /**
    What can pass in `[a, a + window)`, by where the current fixed window ends: the rest of it, and at most one
    further window.
   */
  ghost predicate Bounded(values: map<string, Bucket>, key: string, limit: nat, window: nat, now: Time, a: Time,
                          count: nat)
  {
    var b := a + window as real;
    && (b <= now ==> count == 0)
    && (!Counting(values, key, now) ==> count <= Most(limit) && (a <= now ==> count <= limit))
    && (Counting(values, key, now) ==>
          var bucket := values[key];
          if b <= bucket.expiresAt then count <= Left(bucket, limit)
          else if a <= bucket.expiresAt then count <= Left(bucket, limit) + limit
          else count <= Most(limit))
  }

  lemma {:induction false} PassingBounded(values: map<string, Bucket>, checks: seq<Check>, key: string, limit: nat,
                                          window: nat, now: Time, a: Time)
    requires Timed(now, checks) && Uniform(checks, key, limit, window) && window >= 1
    ensures Bounded(values, key, limit, window, now, a, CountIn(Passing(values, checks, key), a, a + window as real))
    decreases |checks|
  {
    if checks != [] {
      var c := checks[0];
      var values' := values[c.key := Touched(values, c)];
      PassingBounded(values', checks[1..], key, limit, window, c.at, a);
      CountFirst(c.at, Passing(values', checks[1..], key), a, a + window as real);
    }
  }

  /**
    With a fixed limit and window for the key, at most `2 * limit - 1` of its checks pass in any half-open interval
    of one window length.
   */
  lemma SlidingBound(checks: seq<Check>, key: string, limit: nat, window: nat, a: Time)
    requires forall i, j | 0 <= i < j < |checks| :: checks[i].at <= checks[j].at
    requires Uniform(checks, key, limit, window) && window >= 1
    ensures CountIn(Passing(map[], checks, key), a, a + window as real) <= Most(limit)
  {
    if checks != [] {
      PassingBounded(map[], checks, key, limit, window, checks[0].at, a);
    }
  }

  /** In an unexpired window, the checks before its end pass until none is left. */
  lemma {:induction false} RestOfWindow(values: map<string, Bucket>, checks: seq<Check>, key: string, limit: nat,
                                        window: nat, now: Time, a: Time)
    requires Timed(now, checks) && Uniform(checks, key, limit, window)
    requires key in values && a <= now && a <= values[key].expiresAt
    ensures CountIn(Passing(values, checks, key), a, values[key].expiresAt)
            == (if now < values[key].expiresAt
                then Min(Left(values[key], limit), CountIn(Asked(checks, key), a, values[key].expiresAt))
                else 0)
    ensures values[key].expiresAt <= now ==> CountIn(Asked(checks, key), a, values[key].expiresAt) == 0
    decreases |checks|
  {
    if checks != [] {
      var c := checks[0];
      var end := values[key].expiresAt;
      if c.at < end {
        var values' := values[c.key := Touched(values, c)];
        RestOfWindow(values', checks[1..], key, limit, window, c.at, a);
        CountFirst(c.at, Passing(values', checks[1..], key), a, end);
        CountFirst(c.at, Asked(checks[1..], key), a, end);
      } else {
        NoneBefore(values, checks, key, c.at, a, end);
      }
    }
  }

  lemma {:induction false} NoneBefore(values: map<string, Bucket>, checks: seq<Check>, key: string, now: Time,
                                      a: Time, end: Time)
    requires Timed(now, checks) && end <= now
    ensures CountIn(Passing(values, checks, key), a, end) == 0
    ensures CountIn(Asked(checks, key), a, end) == 0
    decreases |checks|
  {
    if checks != [] {
      var c := checks[0];
      var values' := values[c.key := Touched(values, c)];
      NoneBefore(values', checks[1..], key, c.at, a, end);
      CountFirst(c.at, Passing(values', checks[1..], key), a, end);
      CountFirst(c.at, Asked(checks[1..], key), a, end);
    }
  }

  /** A check that opens a fixed window: of the checks in that window exactly the first `limit` pass. */
  lemma FixedWindowExact(values: map<string, Bucket>, checks: seq<Check>, key: string, limit: nat, window: nat)
    requires checks != [] && checks[0].key == key && !Counting(values, key, checks[0].at)
    requires Timed(checks[0].at, checks) && Uniform(checks, key, limit, window) && window >= 1
    ensures var a := checks[0].at;
            CountIn(Passing(values, checks, key), a, a + window as real)
            == Min(limit, CountIn(Asked(checks, key), a, a + window as real))
  {
    var c := checks[0];
    var values' := values[key := Touched(values, c)];
    RestOfWindow(values', checks[1..], key, limit, window, c.at, c.at);
    CountFirst(c.at, Passing(values', checks[1..], key), c.at, c.at + window as real);
    CountFirst(c.at, Asked(checks[1..], key), c.at, c.at + window as real);
  }

  // ---------------------------------------------------------------- the sliding bound is attained

  function Repeat(c: Check, n: nat): (checks: seq<Check>)
    ensures |checks| == n && forall i | 0 <= i < n :: checks[i] == c
  {
    if n == 0 then [] else [c] + Repeat(c, n - 1)
  }

  /** `n` equal checks inside an unexpired window that still has room for them all pass. */
  lemma {:induction false} RepeatPasses(values: map<string, Bucket>, c: Check, n: nat, rest: seq<Check>, a: Time,
                                        b: Time)
    requires Counting(values, c.key, c.at) && values[c.key].count + n <= c.limit && a <= c.at < b
    ensures CountIn(Passing(values, Repeat(c, n) + rest, c.key), a, b)
            == n + CountIn(Passing(values[c.key := values[c.key].(count := values[c.key].count + n)], rest, c.key),
              a, b)
    decreases n
  {
    if n == 0 {
      assert Repeat(c, n) + rest == rest;
      assert values[c.key := values[c.key].(count := values[c.key].count + n)] == values;
    } else {
      var checks := Repeat(c, n) + rest;
      var values' := values[c.key := Touched(values, c)];
      assert checks[0] == c && checks[1..] == Repeat(c, n - 1) + rest;
      RepeatPasses(values', c, n - 1, rest, a, b);
      CountFirst(c.at, Passing(values', checks[1..], c.key), a, b);
      var count := values[c.key].count;
      assert values'[c.key := values'[c.key].(count := count + n)]
          == values[c.key := values[c.key].(count := count + n)];
    }
  }

  /** One check opens a window, the rest of its allowance comes at its end, and a full allowance right after it. */
  function Burst(key: string, limit: nat, window: nat): seq<Check>
    requires limit >= 1
  {
    var end := window as real;
    [Check(0.0, key, limit, window)]
    + (Repeat(Check(end - 0.5, key, limit, window), limit - 1) + Repeat(Check(end, key, limit, window), limit))
  }

  lemma BurstIsTimed(key: string, limit: nat, window: nat)
    requires limit >= 1 && window >= 1
    ensures var checks := Burst(key, limit, window);
            && (forall i, j | 0 <= i < j < |checks| :: checks[i].at <= checks[j].at)
            && Uniform(checks, key, limit, window)
  {
  }

  lemma BurstPasses(key: string, limit: nat, window: nat)
    requires limit >= 1 && window >= 1
    ensures CountIn(Passing(map[], Burst(key, limit, window), key), 0.5, 0.5 + window as real) == Most(limit)
  {
    var end := window as real;
    var a, b := 0.5, 0.5 + end;
    var late, next := Check(end - 0.5, key, limit, window), Check(end, key, limit, window);
    var checks := Burst(key, limit, window);
    var rest := checks[1..];
    assert rest == Repeat(late, limit - 1) + Repeat(next, limit);
    var first: map<string, Bucket> := map[key := Bucket(1, end)];
    var full: map<string, Bucket> := map[key := Bucket(limit, end)];
    assert Passing(map[], checks, key) == [0.0] + Passing(first, rest, key) by {
      assert map[][key := Bucket(1, end)] == first;
    }
    CountFirst(0.0, Passing(first, rest, key), a, b);
    RepeatPasses(first, late, limit - 1, Repeat(next, limit), a, b);
    assert first[key := Bucket(limit, end)] == full;
    SecondWindow(full, next, a, b);
  }

  /** The bound is attained: this burst gets `2 * limit - 1` checks through in one window length. */
  lemma SlidingBoundAttained(key: string, limit: nat, window: nat)
    requires limit >= 1 && window >= 1
    ensures var checks := Burst(key, limit, window);
            && (forall i, j | 0 <= i < j < |checks| :: checks[i].at <= checks[j].at)
            && Uniform(checks, key, limit, window)
            && CountIn(Passing(map[], checks, key), 0.5, 0.5 + window as real) == Most(limit)
  {
    BurstIsTimed(key, limit, window);
    BurstPasses(key, limit, window);
  }

  /** At the end of a full window, a whole allowance passes at once. */
  lemma SecondWindow(values: map<string, Bucket>, c: Check, a: Time, b: Time)
    requires c.key in values && values[c.key].expiresAt <= c.at && a <= c.at < b && c.limit >= 1 && c.window >= 1
    ensures CountIn(Passing(values, Repeat(c, c.limit), c.key), a, b) == c.limit
  {
    var checks := Repeat(c, c.limit);
    var values' := values[c.key := Touched(values, c)];
    assert checks[0] == c && checks[1..] == Repeat(c, c.limit - 1) + [];
    CountFirst(c.at, Passing(values', checks[1..], c.key), a, b);
    RepeatPasses(values', c, c.limit - 1, [], a, b);
  }

  // ---------------------------------------------------------------- a lost expiry

  /** How many checks of a key the counter lets pass. */
  function PassCount(store: map<string, Counter>, checks: seq<Check>, key: string): nat
    decreases |checks|
  {
    if checks == [] then 0
    else
      var c := checks[0];
      (if c.key == key && Incr(store, key, c.at)[key].count <= c.limit then 1 else 0)
      + PassCount(AfterCounter(store, c), checks[1..], key)
  }

  predicate OneLimit(checks: seq<Check>, key: string, limit: nat) {
    forall i | 0 <= i < |checks| && checks[i].key == key :: checks[i].limit == limit
  }

  /** A counter without deadline never starts again: what is left of its limit is all that ever passes. */
  lemma {:induction false} LockedOut(store: map<string, Counter>, checks: seq<Check>, key: string, limit: nat)
    requires key in store && store[key].deadline == None && store[key].count >= 1 && OneLimit(checks, key, limit)
    ensures PassCount(store, checks, key)
            == Min(if store[key].count <= limit then limit - store[key].count else 0, |Asked(checks, key)|)
    decreases |checks|
  {
    if checks != [] {
      LockedOut(AfterCounter(store, checks[0]), checks[1..], key, limit);
    }
  }

  /**
    A process lost between increment and expiry, on a key without live counter: of all later checks of the key, at
    whatever times, only the first `limit - 1` pass, and no other ever does.
   */
  lemma LostExpiry(store: map<string, Counter>, now: Time, checks: seq<Check>, key: string, limit: nat)
    requires !Live(store, key, now) && OneLimit(checks, key, limit)
    ensures PassCount(Incr(store, key, now), checks, key)
              == Min(if limit >= 1 then limit - 1 else 0, |Asked(checks, key)|)
  {
    LockedOut(Incr(store, key, now), checks, key, limit);
  }

  /**
    Lost between increment and expiry, a counter stays for good exactly when the key had no live counter before: a
    counter that was already running keeps its deadline.
   */
  lemma LostForGoodExactly(store: map<string, Counter>, key: string, now: Time)
    requires key in store ==> store[key].deadline.Some?
    ensures (forall t: Time | t >= now :: Live(Incr(store, key, now), key, t)) <==> !Live(store, key, now)
  {
    if Live(store, key, now) {
      assert !Live(Incr(store, key, now), key, store[key].deadline.value);
    }
  }
}
