/**
 * Burst and daily-quota limiting over counters in the store. Both checks read a counter,
 * refuse once it has reached the limit, and otherwise increment it, giving a fresh counter
 * its TTL; any error lets the request through ("fail open").
 */
module RateLimiting {
  import opened Wrappers
  import opened JsonValue
  import opened Store

  /** The outcome of one counter check. */
  datatype Admission =
    | Rejected(count: int)   // the counter had reached the limit; nothing written
    | Admitted(count: int)   // the counter was incremented to `count`
    | FailedOpen             // an error was swallowed; nothing written, request allowed

  /** `RedisCache.get(key) or 0`, then compared with an int: None means the comparison raises.
      A stored float is read as its floor, which is at or over an integer limit exactly when
      the float is (`FloatComparesAsFloor`). */
  function CountOf(j: Json): (r: Option<int>)
    ensures j.JInt? ==> r == Some(j.i)
    ensures j.JFloat? ==> r == Some(j.x.Floor)
    ensures !Truthy(j) ==> r == Some(0)
    ensures r.None? <==> Truthy(j) && !j.JInt? && !j.JBool? && !j.JFloat?
  {
    if !Truthy(j) then Some(0)
    else match j
      case JInt(i) => Some(i)
      case JBool(_) => Some(1)
      case JFloat(x) => Some(x.Floor)
      case _ => None
  }

  /** Python's `x >= limit` for a float `x` and an int `limit` decides as the floor of `x` does. */
  lemma FloatComparesAsFloor(x: real, limit: int)
    ensures x >= limit as real <==> x.Floor >= limit
  {
  }

  /** A stored float at or over the limit rejects the request, and one below it lets the
      request through without a write, since INCRBY refuses a non-integer value. */
  lemma StoredFloatAgainstLimit(s: StoreState, key: string, limit: int, ttl: int, x: real)
    requires GetSpec(s, key) == JFloat(x)
    ensures AdmitSpec(s, key, limit, ttl).1.Rejected? <==> x >= limit as real
    ensures x < limit as real ==> AdmitSpec(s, key, limit, ttl) == (s, FailedOpen)
  {
    FloatComparesAsFloor(x, limit);
  }

  /** The counter as INCRBY sees it agrees with the counter as the check reads it. */
  lemma CountOfCounter(s: StoreState, key: string)
    requires s.up && IsCounter(s, key)
    ensures CountOf(GetSpec(s, key)) == Some(CounterValue(s, key))
  {
  }

  /** One counter check on `key` against `limit`, giving a fresh counter `ttl` seconds. */
  function AdmitSpec(s: StoreState, key: string, limit: int, ttl: int): (r: (StoreState, Admission))
    ensures r.1.Rejected? <==> CountOf(GetSpec(s, key)).Some? && CountOf(GetSpec(s, key)).value >= limit
    ensures r.1.Rejected? ==> r.0 == s && r.1.count == CountOf(GetSpec(s, key)).value
    ensures r.1.FailedOpen? <==> !r.1.Rejected? && !(s.up && IsCounter(s, key))
    ensures r.1.FailedOpen? ==> r.0 == s
    ensures r.1.Admitted? ==> r.1.count == CounterValue(s, key) + 1 && r.1.count <= limit
    ensures r.1.Admitted? && r.1.count == 1 && ttl > 0 ==>
      Slot(r.0, key) == Some(Entry(Doc(JInt(1)), Some(s.now + ttl * MicrosPerSecond)))
    ensures r.1.Admitted? && r.1.count == 1 && ttl <= 0 ==> Slot(r.0, key).None?
    ensures r.1.Admitted? && r.1.count != 1 ==>
      Slot(r.0, key) == Some(Entry(Doc(JInt(r.1.count)), ExpiryOf(s, key)))
    ensures r.0.data - {key} == s.data - {key} && r.0.now == s.now && r.0.up == s.up
  {
    var c := CountOf(GetSpec(s, key));
    if c.None? then (s, FailedOpen)
    else if c.value >= limit then (s, Rejected(c.value))
    else
      var (s1, n) := IncrementSpec(s, key, 1);
      if n.None? then (s, FailedOpen)
      else
        CountOfCounter(s, key);
        if n.value == 1 then (SetExpireSpec(s1, key, ttl).0, Admitted(1))
        else (s1, Admitted(n.value))
  }

  /** A check writes nothing but its own counter, and increments it once exactly when it admits. */
  lemma AdmitLog(s: StoreState, key: string, limit: int, ttl: int)
    ensures var (s1, a) := AdmitSpec(s, key, limit, ttl);
      s.log <= s1.log
      && (forall i | |s.log| <= i < |s1.log| :: s1.log[i].key == key)
      && Increments(Written(s, s1), key) == if a.Admitted? then 1 else 0
  {
    var (s1, a) := AdmitSpec(s, key, limit, ttl);
    if a.Admitted? {
      var (t1, n) := IncrementSpec(s, key, 1);
      assert t1.log == s.log + [Incremented(key, 1)];
      assert Written(s, t1) == [Incremented(key, 1)];
      if a.count == 1 {
        assert Written(s, s1) == Written(s, t1) + Written(t1, s1);
        IncrementsAppend(Written(s, t1), Written(t1, s1), key);
      }
    }
  }

  /** `n` checks in a row with the clock standing still: the final state and how many were let through. */
  function AdmitRun(s: StoreState, key: string, limit: int, ttl: int, n: nat): (StoreState, nat)
    decreases n
  {
    if n == 0 then (s, 0)
    else
      var (s1, a) := AdmitSpec(s, key, limit, ttl);
      var (s2, k) := AdmitRun(s1, key, limit, ttl, n - 1);
      (s2, k + if a.Rejected? then 0 else 1)
  }

  /** While the store answers and the window has not passed, no more than the limit
      (counting what the counter already holds) gets through, however many requests come. */
  lemma {:induction false} AdmissionsBounded(s: StoreState, key: string, limit: int, ttl: int, n: nat)
    requires s.up && IsCounter(s, key) && ttl > 0
    ensures AdmitRun(s, key, limit, ttl, n).1 <= if limit > CounterValue(s, key) then limit - CounterValue(s, key) else 0
    decreases n
  {
    if n > 0 {
      var (s1, a) := AdmitSpec(s, key, limit, ttl);
      CountOfCounter(s, key);
      if a.Admitted? {
        assert IsCounter(s1, key) && CounterValue(s1, key) == CounterValue(s, key) + 1;
      }
      AdmissionsBounded(s1, key, limit, ttl, n - 1);
    }
  }

  /** With the store unreachable every request is let through. */
  lemma {:induction false} UnreachableAdmitsAll(s: StoreState, key: string, limit: int, ttl: int, n: nat)
    requires !s.up && limit > 0
    ensures AdmitRun(s, key, limit, ttl, n).1 == n
    decreases n
  {
    if n > 0 {
      assert AdmitSpec(s, key, limit, ttl) == (s, FailedOpen);
      UnreachableAdmitsAll(s, key, limit, ttl, n - 1);
    }
  }

  /** The counter check as a method on the store. */
  method Admit(store: KeyValueStore, key: string, limit: int, ttl: int) returns (a: Admission)
    modifies store
    ensures (store.State(), a) == AdmitSpec(old(store.State()), key, limit, ttl)
  {
    var cached := store.Get(key);
    var c := CountOf(cached);
    if c.None? {
      return FailedOpen;
    }
    if c.value >= limit {
      return Rejected(c.value);
    }
    var n := store.Increment(key, 1);
    if n.None? {
      return FailedOpen;
    }
    if n.value == 1 {
      var _ := store.SetExpire(key, ttl);
    }
    a := Admitted(n.value);
  }

  // ---- burst limiting ----

  /** What `check_rate_limit` reports; `failedOpen` marks the answer given after an error. */
  datatype RateInfo = RateInfo(allowed: bool, limit: int, remaining: int, resetTime: int, currentCount: int, failedOpen: bool)

  function RateLimitSpec(s: StoreState, userId: int, endpoint: string, limit: int, windowSeconds: int): (r: (StoreState, RateInfo))
    ensures r.1.limit == limit
    ensures !r.1.allowed ==>
      r.0 == s && r.1.remaining == 0 && r.1.currentCount >= limit && r.1.resetTime == s.now
    ensures r.1.allowed && !r.1.failedOpen ==>
      r.1.currentCount <= limit && r.1.remaining == limit - r.1.currentCount
      && r.1.resetTime == s.now + windowSeconds * MicrosPerSecond
    ensures r.1.failedOpen ==>
      r.0 == s && r.1.allowed && r.1.currentCount == 1 && r.1.remaining == limit - 1
    ensures r.0.data - {RateLimitKey(userId, endpoint)} == s.data - {RateLimitKey(userId, endpoint)}
    ensures r.0.now == s.now && r.0.up == s.up
    ensures r.0 == AdmitSpec(s, RateLimitKey(userId, endpoint), limit, windowSeconds).0
    ensures var stored := CountOf(GetSpec(s, RateLimitKey(userId, endpoint)));
      !r.1.allowed <==> stored.Some? && stored.value >= limit
    ensures !r.1.allowed ==> r.1.currentCount == CountOf(GetSpec(s, RateLimitKey(userId, endpoint))).value
    ensures r.1.failedOpen <==> AdmitSpec(s, RateLimitKey(userId, endpoint), limit, windowSeconds).1.FailedOpen?
    ensures r.1.allowed && !r.1.failedOpen ==> r.1.currentCount == CounterValue(s, RateLimitKey(userId, endpoint)) + 1
  {
    var (s1, a) := AdmitSpec(s, RateLimitKey(userId, endpoint), limit, windowSeconds);
    var info := match a
      case Rejected(c) => RateInfo(false, limit, 0, s.now, c, false)
      case Admitted(n) => RateInfo(true, limit, limit - n, s.now + windowSeconds * MicrosPerSecond, n, false)
      case FailedOpen => RateInfo(true, limit, limit - 1, s.now + windowSeconds * MicrosPerSecond, 1, true);
    (s1, info)
  }

  method CheckRateLimit(store: KeyValueStore, userId: int, endpoint: string, limit: int, windowSeconds: int)
    returns (allowed: bool, info: RateInfo)
    modifies store
    ensures (store.State(), info) == RateLimitSpec(old(store.State()), userId, endpoint, limit, windowSeconds)
    ensures allowed == info.allowed
  {
    var now := store.now;
    var a := Admit(store, RateLimitKey(userId, endpoint), limit, windowSeconds);
    match a {
      case Rejected(c) =>
        info := RateInfo(false, limit, 0, now, c, false);
      case Admitted(n) =>
        info := RateInfo(true, limit, limit - n, now + windowSeconds * MicrosPerSecond, n, false);
      case FailedOpen =>
        info := RateInfo(true, limit, limit - 1, now + windowSeconds * MicrosPerSecond, 1, true);
    }
    allowed := info.allowed;
  }

  /** A burst check writes only its own counter, so it never increments a daily one. */
  lemma RateLimitSparesQuota(s: StoreState, userId: int, endpoint: string, limit: int, windowSeconds: int, anyone: int)
    ensures var s1 := RateLimitSpec(s, userId, endpoint, limit, windowSeconds).0;
      s.log <= s1.log && Increments(Written(s, s1), DailyQueriesKey(anyone)) == 0
  {
    var key := RateLimitKey(userId, endpoint);
    var s1 := RateLimitSpec(s, userId, endpoint, limit, windowSeconds).0;
    AdmitLog(s, key, limit, windowSeconds);
    assert key != DailyQueriesKey(anyone) by {
      assert NamespaceOf(key) != NamespaceOf(DailyQueriesKey(anyone));
    }
    forall i | 0 <= i < |Written(s, s1)|
      ensures Written(s, s1)[i].key != DailyQueriesKey(anyone)
    {
      assert Written(s, s1)[i] == s1.log[|s.log| + i];
    }
    UntouchedNotIncremented(Written(s, s1), DailyQueriesKey(anyone));
  }

  // ---- daily quota ----

  const MicrosPerDay: int := 86400 * MicrosPerSecond

  /** Queries a day by plan; an unknown plan gets the free allowance. */
  function DailyLimit(plan: string): (n: int)
    ensures plan == "free" ==> n == 5
    ensures plan == "pro" ==> n == 100
    ensures plan == "elite" ==> n == 1000
    ensures plan !in {"free", "pro", "elite"} ==> n == 5
  {
    if plan == "free" then 5
    else if plan == "pro" then 100
    else if plan == "elite" then 1000
    else 5
  }

  /** Local midnight starting the day that holds `t`. */
  function StartOfDay(t: int): (r: int)
    ensures r <= t < r + MicrosPerDay && r % MicrosPerDay == 0
  {
    t - t % MicrosPerDay
  }

  /** `int((end_of_day - now).total_seconds())` with end of day at 23:59:59.999999. */
  function SecondsUntilEndOfDay(t: int): (r: int)
    ensures 0 <= r < 86400
    ensures t + r * MicrosPerSecond < StartOfDay(t) + MicrosPerDay
    ensures StartOfDay(t) + MicrosPerDay <= t + (r + 1) * MicrosPerSecond
  {
    (StartOfDay(t) + MicrosPerDay - 1 - t) / MicrosPerSecond
  }

  /** What `check_daily_queries` reports. */
  datatype QuotaInfo = QuotaInfo(allowed: bool, dailyLimit: int, used: int, remaining: int, resetTime: int, failedOpen: bool)

  function DailyQuerySpec(s: StoreState, userId: int, plan: string): (r: (StoreState, QuotaInfo))
    ensures r.1.dailyLimit == DailyLimit(plan)
    ensures r.1.resetTime == StartOfDay(s.now) + MicrosPerDay
    ensures !r.1.allowed ==> r.0 == s && r.1.remaining == 0 && r.1.used >= r.1.dailyLimit
    ensures r.1.allowed && !r.1.failedOpen ==>
      r.1.used <= r.1.dailyLimit && r.1.remaining == r.1.dailyLimit - r.1.used
    ensures r.1.failedOpen ==> r.0 == s && r.1.allowed && r.1.used == 1
    ensures r.0.data - {DailyQueriesKey(userId)} == s.data - {DailyQueriesKey(userId)}
    ensures r.0.now == s.now && r.0.up == s.up
    ensures r.0 == AdmitSpec(s, DailyQueriesKey(userId), DailyLimit(plan), SecondsUntilEndOfDay(s.now)).0
    ensures var stored := CountOf(GetSpec(s, DailyQueriesKey(userId)));
      !r.1.allowed <==> stored.Some? && stored.value >= DailyLimit(plan)
    ensures !r.1.allowed ==> r.1.used == CountOf(GetSpec(s, DailyQueriesKey(userId))).value
    ensures r.1.failedOpen <==> AdmitSpec(s, DailyQueriesKey(userId), DailyLimit(plan), SecondsUntilEndOfDay(s.now)).1.FailedOpen?
    ensures r.1.allowed && !r.1.failedOpen ==> r.1.used == CounterValue(s, DailyQueriesKey(userId)) + 1
  {
    var limit := DailyLimit(plan);
    var (s1, a) := AdmitSpec(s, DailyQueriesKey(userId), limit, SecondsUntilEndOfDay(s.now));
    var reset := StartOfDay(s.now) + MicrosPerDay;
    var info := match a
      case Rejected(c) => QuotaInfo(false, limit, c, 0, reset, false)
      case Admitted(n) => QuotaInfo(true, limit, n, limit - n, reset, false)
      case FailedOpen => QuotaInfo(true, limit, 1, limit - 1, reset, true);
    (s1, info)
  }

  /** A daily check writes only the user's own counter and increments it once exactly when
      it admits without an error. */
  lemma DailyQueryLog(s: StoreState, userId: int, plan: string, counter: string)
    ensures var (s1, info) := DailyQuerySpec(s, userId, plan);
      s.log <= s1.log
      && Increments(Written(s, s1), counter) == if counter == DailyQueriesKey(userId) && info.allowed && !info.failedOpen then 1 else 0
  {
    var key := DailyQueriesKey(userId);
    var (s1, info) := DailyQuerySpec(s, userId, plan);
    AdmitLog(s, key, DailyLimit(plan), SecondsUntilEndOfDay(s.now));
    if counter != key {
      forall i | 0 <= i < |Written(s, s1)|
        ensures Written(s, s1)[i].key != counter
      {
        assert Written(s, s1)[i] == s1.log[|s.log| + i];
      }
      UntouchedNotIncremented(Written(s, s1), counter);
    }
  }

  /** Room left under the day's limit on a counter the store can increment. */
  predicate QuotaOpen(s: StoreState, userId: int, plan: string) {
    s.up && IsCounter(s, DailyQueriesKey(userId)) && CounterValue(s, DailyQueriesKey(userId)) < DailyLimit(plan)
  }

  /** With room left, the daily check admits, counting one more query. */
  lemma OpenQuotaAdmits(s: StoreState, userId: int, plan: string)
    requires QuotaOpen(s, userId, plan)
    ensures var info := DailyQuerySpec(s, userId, plan).1;
      info.allowed && !info.failedOpen && info.used == CounterValue(s, DailyQueriesKey(userId)) + 1
  {
    if s.up && IsCounter(s, DailyQueriesKey(userId)) { CountOfCounter(s, DailyQueriesKey(userId)); }
  }

  /** The first query of a day starts a counter that is gone by the next midnight. */
  lemma FirstQueryExpiresByMidnight(s: StoreState, userId: int, plan: string)
    requires s.up && Slot(s, DailyQueriesKey(userId)).None?
    ensures var (s1, info) := DailyQuerySpec(s, userId, plan);
      info.allowed && !info.failedOpen && info.used == 1
      && (Slot(s1, DailyQueriesKey(userId)).None?
          || (Slot(s1, DailyQueriesKey(userId)).value.expiry.Some?
              && Slot(s1, DailyQueriesKey(userId)).value.expiry.value < StartOfDay(s.now) + MicrosPerDay))
  {
    var key := DailyQueriesKey(userId);
    assert GetSpec(s, key) == JNull;
    assert IsCounter(s, key) && CounterValue(s, key) == 0;
  }

  method CheckDailyQueries(store: KeyValueStore, userId: int, plan: string) returns (allowed: bool, info: QuotaInfo)
    modifies store
    ensures (store.State(), info) == DailyQuerySpec(old(store.State()), userId, plan)
    ensures allowed == info.allowed
  {
    var limit := DailyLimit(plan);
    var now := store.now;
    var reset := StartOfDay(now) + MicrosPerDay;
    var a := Admit(store, DailyQueriesKey(userId), limit, SecondsUntilEndOfDay(now));
    match a {
      case Rejected(c) =>
        info := QuotaInfo(false, limit, c, 0, reset, false);
      case Admitted(n) =>
        info := QuotaInfo(true, limit, n, limit - n, reset, false);
      case FailedOpen =>
        info := QuotaInfo(true, limit, 1, limit - 1, reset, true);
    }
    allowed := info.allowed;
  }

  /** `reset_daily_queries`: drops the counter; True whenever the store answers. */
  method ResetDailyQueries(store: KeyValueStore, userId: int) returns (ok: bool)
    modifies store
    ensures (store.State(), ok) == DeleteSpec(old(store.State()), DailyQueriesKey(userId))
  {
    ok := store.Delete(DailyQueriesKey(userId));
  }

  /** After a reset the next query of the day is admitted as the first. */
  lemma ResetRestoresQuota(s: StoreState, userId: int, plan: string)
    requires s.up
    ensures var info := DailyQuerySpec(DeleteSpec(s, DailyQueriesKey(userId)).0, userId, plan).1;
      info.allowed && !info.failedOpen && info.used == 1 && info.remaining == DailyLimit(plan) - 1
  {
    var s1 := DeleteSpec(s, DailyQueriesKey(userId)).0;
    assert Slot(s1, DailyQueriesKey(userId)).None?;
    assert IsCounter(s1, DailyQueriesKey(userId)) && CounterValue(s1, DailyQueriesKey(userId)) == 0;
  }

  // ---- reading the quota without spending it ----

  /** The quota as it stands, with no increment: what the chat endpoint needs before it
      knows whether the reply will come from the cache. A value that cannot be compared
      counts as nothing used, in keeping with the limiter's failing open. */
  function PeekSpec(s: StoreState, userId: int, plan: string): (r: QuotaInfo)
    ensures r.dailyLimit == DailyLimit(plan) && !r.failedOpen
    ensures r.allowed <==> r.used < r.dailyLimit
    ensures r.remaining == if r.allowed then r.dailyLimit - r.used else 0
    ensures r.used == CountOf(GetSpec(s, DailyQueriesKey(userId))).GetOr(0)
    ensures s.up && IsCounter(s, DailyQueriesKey(userId)) ==> r.used == CounterValue(s, DailyQueriesKey(userId))
    ensures !s.up || Slot(s, DailyQueriesKey(userId)).None? ==> r.used == 0
  {
    var limit := DailyLimit(plan);
    var used := CountOf(GetSpec(s, DailyQueriesKey(userId))).GetOr(0);
    QuotaInfo(used < limit, limit, used, if used < limit then limit - used else 0, StartOfDay(s.now) + MicrosPerDay, false)
  }

  method PeekDailyQueries(store: KeyValueStore, userId: int, plan: string) returns (info: QuotaInfo)
    ensures info == PeekSpec(store.State(), userId, plan)
  {
    var limit := DailyLimit(plan);
    var cached := store.Get(DailyQueriesKey(userId));
    var used := CountOf(cached).GetOr(0);
    info := QuotaInfo(used < limit, limit, used, if used < limit then limit - used else 0, StartOfDay(store.now) + MicrosPerDay, false);
  }

  /** The peek predicts the check: an exhausted peek means the check refuses with the same
      count, and an open peek on a healthy counter means the check admits one more. */
  lemma PeekPredictsCheck(s: StoreState, userId: int, plan: string)
    requires s.up && IsCounter(s, DailyQueriesKey(userId))
    ensures var peek := PeekSpec(s, userId, plan);
      var info := DailyQuerySpec(s, userId, plan).1;
      (!peek.allowed ==> !info.allowed && info.used == peek.used)
      && (peek.allowed ==> info.allowed && !info.failedOpen && info.used == peek.used + 1)
  {
    if s.up && IsCounter(s, DailyQueriesKey(userId)) { CountOfCounter(s, DailyQueriesKey(userId)); }
  }
}
