/**
 * The Redis cache wrapper: a key-value store whose every operation swallows errors.
 * A `KeyValueStore` object holds the keys, the server clock and whether the server is
 * reachable; each method is proved equal to a pure operation on a `StoreState` value,
 * so that callers can reason about sequences of calls as compositions of functions.
 */
module Store {
  import opened Wrappers
  import opened Text
  import opened JsonValue

  /** The clock counts microseconds; TTLs are given in seconds. */
  const MicrosPerSecond: int := 1_000_000

  /** What a key holds: the text of a JSON document (everything `set` and INCRBY write),
      or text that is not JSON (including the empty string), written by another client. */
  datatype Cell = Doc(doc: Json) | Raw(text: string)

  /** A stored value with its absolute expiry instant, if any. */
  datatype Entry = Entry(cell: Cell, expiry: Option<int>)

  /** A successful mutation, kept for reasoning about how often a key was written. */
  datatype Op =
    | Wrote(key: string)
    | Incremented(key: string, amount: int)
    | ExpirySet(key: string)
    | Deleted(key: string)

  datatype StoreState = StoreState(data: map<string, Entry>, now: int, up: bool, log: seq<Op>)

  predicate Live(e: Entry, now: int) {
    e.expiry.None? || now < e.expiry.value
  }

  /** The entry a key holds now; an entry past its expiry is as good as absent. */
  function Slot(s: StoreState, key: string): Option<Entry> {
    if key in s.data && Live(s.data[key], s.now) then Some(s.data[key]) else None
  }

  /** The map with `key` holding `e`, or without `key` when `e` is None. */
  function Put(data: map<string, Entry>, key: string, e: Option<Entry>): (r: map<string, Entry>)
    ensures r - {key} == data - {key}
    ensures e.Some? ==> key in r && r[key] == e.value
    ensures e.None? ==> key !in r
  {
    if e.Some? then data[key := e.value] else data - {key}
  }

  // ---- the operations, as functions of the state ----

  /** `get`: the decoded document, JNull standing for Python's None (a miss, an
      unreachable server, a value that is empty or not JSON, and a stored `null` alike). */
  function GetSpec(s: StoreState, key: string): (r: Json)
    ensures r != JNull ==> s.up && Slot(s, key).Some? && Slot(s, key).value.cell == Doc(r)
    ensures s.up && Slot(s, key).Some? && Slot(s, key).value.cell.Doc? ==> r == Slot(s, key).value.cell.doc
  {
    if s.up && Slot(s, key).Some? && Slot(s, key).value.cell.Doc? then Slot(s, key).value.cell.doc else JNull
  }

  /** `set(key, value, expire)`: SETEX refuses a TTL that is not positive. */
  function SetSpec(s: StoreState, key: string, value: Json, expire: int): (r: (StoreState, bool))
    ensures r.1 <==> s.up && expire > 0
    ensures !r.1 ==> r.0 == s
    ensures r.1 ==> Slot(r.0, key) == Some(Entry(Doc(value), Some(s.now + expire * MicrosPerSecond)))
    ensures r.0.data - {key} == s.data - {key} && r.0.now == s.now && r.0.up == s.up
  {
    if s.up && expire > 0 then
      var e := Entry(Doc(value), Some(s.now + expire * MicrosPerSecond));
      (s.(data := s.data[key := e], log := s.log + [Wrote(key)]), true)
    else (s, false)
  }

  /** `delete`: True whenever the server answers, whether or not the key existed. */
  function DeleteSpec(s: StoreState, key: string): (r: (StoreState, bool))
    ensures r.1 <==> s.up
    ensures !r.1 ==> r.0 == s
    ensures r.1 ==> Slot(r.0, key).None? && r.0.data == s.data - {key}
    ensures r.0.now == s.now && r.0.up == s.up
  {
    if s.up then (s.(data := s.data - {key}, log := s.log + [Deleted(key)]), true) else (s, false)
  }

  /** `exists` */
  function ExistsSpec(s: StoreState, key: string): (r: bool)
    ensures r <==> s.up && Slot(s, key).Some?
  {
    s.up && Slot(s, key).Some?
  }

  /** `increment`: INCRBY starts an absent key at zero without a TTL, keeps the TTL of an
      existing counter, and fails (None) on a value that is not an integer. */
  function IncrementSpec(s: StoreState, key: string, amount: int): (r: (StoreState, Option<int>))
    ensures r.1.None? ==> r.0 == s
    ensures r.1.Some? ==> s.up && r.1.value == CounterValue(s, key) + amount
    ensures r.1.Some? ==> Slot(r.0, key) == Some(Entry(Doc(JInt(r.1.value)), ExpiryOf(s, key)))
    ensures r.1.Some? ==> r.0.data - {key} == s.data - {key} && r.0.now == s.now && r.0.up == s.up
    ensures r.1.Some? <==> s.up && IsCounter(s, key)
  {
    if !s.up then (s, None)
    else match Slot(s, key)
      case None =>
        (s.(data := s.data[key := Entry(Doc(JInt(amount)), None)], log := s.log + [Incremented(key, amount)]), Some(amount))
      case Some(Entry(Doc(JInt(n)), exp)) =>
        (s.(data := s.data[key := Entry(Doc(JInt(n + amount)), exp)], log := s.log + [Incremented(key, amount)]), Some(n + amount))
      case Some(_) => (s, None)
  }

  /** A key INCRBY accepts: absent, or holding an integer. */
  predicate IsCounter(s: StoreState, key: string) {
    Slot(s, key).None? || (Slot(s, key).value.cell.Doc? && Slot(s, key).value.cell.doc.JInt?)
  }

  /** The integer INCRBY starts from. */
  function CounterValue(s: StoreState, key: string): int {
    if Slot(s, key).Some? && Slot(s, key).value.cell.Doc? && Slot(s, key).value.cell.doc.JInt? then
      Slot(s, key).value.cell.doc.i
    else 0
  }

  function ExpiryOf(s: StoreState, key: string): Option<int> {
    if Slot(s, key).Some? then Slot(s, key).value.expiry else None
  }

  /** `set_expire`: EXPIRE answers False for a missing key and deletes the key at once
      when the TTL is not positive. */
  function SetExpireSpec(s: StoreState, key: string, seconds: int): (r: (StoreState, bool))
    ensures r.1 <==> s.up && Slot(s, key).Some?
    ensures !r.1 ==> r.0 == s
    ensures r.1 && seconds <= 0 ==> Slot(r.0, key).None?
    ensures r.1 && seconds > 0 ==>
      Slot(r.0, key) == Some(Entry(Slot(s, key).value.cell, Some(s.now + seconds * MicrosPerSecond)))
    ensures r.0.data - {key} == s.data - {key} && r.0.now == s.now && r.0.up == s.up
  {
    if !s.up || Slot(s, key).None? then (s, false)
    else if seconds <= 0 then (s.(data := s.data - {key}, log := s.log + [Deleted(key)]), true)
    else
      var e := Entry(Slot(s, key).value.cell, Some(s.now + seconds * MicrosPerSecond));
      (s.(data := s.data[key := e], log := s.log + [ExpirySet(key)]), true)
  }

  /** The part of the log written between two states. */
  function Written(before: StoreState, after: StoreState): seq<Op>
    requires before.log <= after.log
  {
    after.log[|before.log|..]
  }

  /** How often `key` was incremented in a stretch of the log. */
  function Increments(log: seq<Op>, key: string): nat {
    if |log| == 0 then 0
    else Increments(log[..|log| - 1], key) + (if log[|log| - 1] == Incremented(key, 1) then 1 else 0)
  }

  /** Whether a stretch of the log mutates `key` at all. */
  predicate Touches(log: seq<Op>, key: string) {
    exists i | 0 <= i < |log| :: log[i].key == key
  }

  lemma {:induction false} IncrementsAppend(a: seq<Op>, b: seq<Op>, key: string)
    ensures Increments(a + b, key) == Increments(a, key) + Increments(b, key)
    decreases |b|
  {
    if |b| > 0 {
      assert (a + b)[..|a + b| - 1] == a + b[..|b| - 1];
      IncrementsAppend(a, b[..|b| - 1], key);
    } else {
      assert a + b == a;
    }
  }

  /** A write to another key leaves this key's entry as it was. */
  lemma SlotUnaffected(s: StoreState, s1: StoreState, written: string, key: string)
    requires s1.data - {written} == s.data - {written} && s1.now == s.now && written != key
    ensures Slot(s1, key) == Slot(s, key)
  {
    assert key in s.data <==> key in s.data - {written};
    assert key in s1.data <==> key in s1.data - {written};
    if key in s.data {
      assert s.data[key] == (s.data - {written})[key];
      assert s1.data[key] == (s1.data - {written})[key];
    }
  }

  /** `set` logs a write and never an increment. */
  lemma SetIncrementsNothing(s: StoreState, key: string, value: Json, expire: int, counter: string)
    ensures var s1 := SetSpec(s, key, value, expire).0;
      s.log <= s1.log && Increments(Written(s, s1), counter) == 0
  {
    var s1 := SetSpec(s, key, value, expire).0;
    if s1 != s {
      assert Written(s, s1) == [Wrote(key)];
      assert Written(s, s1)[..0] == [];
    } else {
      assert Written(s, s1) == [];
    }
  }

  /** Increments over two consecutive stretches of the log add up. */
  lemma WrittenChain(a: StoreState, b: StoreState, c: StoreState, key: string)
    requires a.log <= b.log && b.log <= c.log
    ensures a.log <= c.log
    ensures Increments(Written(a, c), key) == Increments(Written(a, b), key) + Increments(Written(b, c), key)
  {
    assert Written(a, c) == Written(a, b) + Written(b, c);
    IncrementsAppend(Written(a, b), Written(b, c), key);
  }

  lemma {:induction false} UntouchedNotIncremented(log: seq<Op>, key: string)
    requires !Touches(log, key)
    ensures Increments(log, key) == 0
    decreases |log|
  {
    if |log| > 0 {
      assert log[|log| - 1].key != key;
      UntouchedNotIncremented(log[..|log| - 1], key);
    }
  }

  class KeyValueStore {
    var data: map<string, Entry>
    var now: int
    var up: bool
    ghost var log: seq<Op>

    ghost function State(): StoreState
      reads this
    {
      StoreState(data, now, up, log)
    }

    /** An empty, reachable store whose clock reads `start`. */
    constructor (start: int)
      ensures State() == StoreState(map[], start, true, [])
    {
      data := map[];
      now := start;
      up := true;
      log := [];
    }

    method Get(key: string) returns (r: Json)
      ensures r == GetSpec(State(), key)
    {
      if up && key in data && Live(data[key], now) && data[key].cell.Doc? {
        r := data[key].cell.doc;
      } else {
        r := JNull;
      }
    }

    method Set(key: string, value: Json, expire: int) returns (ok: bool)
      modifies this
      ensures (State(), ok) == SetSpec(old(State()), key, value, expire)
    {
      if up && expire > 0 {
        data := data[key := Entry(Doc(value), Some(now + expire * MicrosPerSecond))];
        log := log + [Wrote(key)];
        ok := true;
      } else {
        ok := false;
      }
    }

    method Delete(key: string) returns (ok: bool)
      modifies this
      ensures (State(), ok) == DeleteSpec(old(State()), key)
    {
      if up {
        data := data - {key};
        log := log + [Deleted(key)];
      }
      ok := up;
    }

    method Exists(key: string) returns (r: bool)
      ensures r == ExistsSpec(State(), key)
    {
      r := up && key in data && Live(data[key], now);
    }

    method Increment(key: string, amount: int) returns (r: Option<int>)
      modifies this
      ensures (State(), r) == IncrementSpec(old(State()), key, amount)
    {
      if !up {
        return None;
      }
      if key !in data || !Live(data[key], now) {
        data := data[key := Entry(Doc(JInt(amount)), None)];
        r := Some(amount);
      } else if data[key].cell.Doc? && data[key].cell.doc.JInt? {
        var n := data[key].cell.doc.i + amount;
        data := data[key := Entry(Doc(JInt(n)), data[key].expiry)];
        r := Some(n);
      } else {
        return None;
      }
      log := log + [Incremented(key, amount)];
    }

    method SetExpire(key: string, seconds: int) returns (ok: bool)
      modifies this
      ensures (State(), ok) == SetExpireSpec(old(State()), key, seconds)
    {
      if !up || key !in data || !Live(data[key], now) {
        return false;
      }
      if seconds <= 0 {
        data := data - {key};
        log := log + [Deleted(key)];
      } else {
        data := data[key := Entry(data[key].cell, Some(now + seconds * MicrosPerSecond))];
        log := log + [ExpirySet(key)];
      }
      ok := true;
    }

    /** The server clock moves on; entries past their expiry stop being visible. */
    method Advance(micros: nat)
      modifies this
      ensures State() == old(State()).(now := old(now) + micros)
    {
      now := now + micros;
    }

    /** The server becomes reachable or unreachable. */
    method SetReachable(reachable: bool)
      modifies this
      ensures State() == old(State()).(up := reachable)
    {
      up := reachable;
    }
  }

  // ---- key generators ----

  /** The kinds of key the application writes, told apart by their prefix. */
  datatype Namespace = AiResponses | Users | RateLimits | DailyQueries | Analytics | Other

  const AiResponsePrefix: string := "ai_response:"
  const UserPrefix: string := "user:"
  const RateLimitPrefix: string := "rate_limit:"
  const DailyQueriesPrefix: string := "daily_queries:"
  const AnalyticsPrefix: string := "analytics:"

  function NamespaceOf(key: string): Namespace {
    if IsPrefix(AiResponsePrefix, key) then AiResponses
    else if IsPrefix(UserPrefix, key) then Users
    else if IsPrefix(RateLimitPrefix, key) then RateLimits
    else if IsPrefix(DailyQueriesPrefix, key) then DailyQueries
    else if IsPrefix(AnalyticsPrefix, key) then Analytics
    else Other
  }

  function AiResponseKey(userId: int, messagesHash: string): (r: string)
    ensures NamespaceOf(r) == AiResponses
  {
    var r := AiResponsePrefix + IntToString(userId) + ":" + messagesHash;
    assert r[..|AiResponsePrefix|] == AiResponsePrefix;
    assert r[0] == AiResponsePrefix[0] && r[1] == AiResponsePrefix[1];
    r
  }

  function UserKey(userId: int): (r: string)
    ensures NamespaceOf(r) == Users
  {
    var r := UserPrefix + IntToString(userId);
    assert r[..|UserPrefix|] == UserPrefix;
    assert r[0] == UserPrefix[0] && r[1] == UserPrefix[1];
    r
  }

  function RateLimitKey(userId: int, endpoint: string): (r: string)
    ensures NamespaceOf(r) == RateLimits
  {
    var r := RateLimitPrefix + IntToString(userId) + ":" + endpoint;
    assert r[..|RateLimitPrefix|] == RateLimitPrefix;
    assert r[0] == RateLimitPrefix[0] && r[1] == RateLimitPrefix[1];
    r
  }

  function DailyQueriesKey(userId: int): (r: string)
    ensures NamespaceOf(r) == DailyQueries
  {
    var r := DailyQueriesPrefix + IntToString(userId);
    assert r[..|DailyQueriesPrefix|] == DailyQueriesPrefix;
    assert r[0] == DailyQueriesPrefix[0] && r[1] == DailyQueriesPrefix[1];
    r
  }

  function AnalyticsKey(userId: int, action: string): (r: string)
    ensures NamespaceOf(r) == Analytics
  {
    var r := AnalyticsPrefix + IntToString(userId) + ":" + action;
    assert r[..|AnalyticsPrefix|] == AnalyticsPrefix;
    assert r[0] == AnalyticsPrefix[0] && r[1] == AnalyticsPrefix[1];
    r
  }

  lemma IntToStringNoColon(i: int)
    ensures ':' !in IntToString(i)
  {
    var s := IntToString(i);
    assert forall k | 0 <= k < |s| :: s[k] != ':';
  }

  /** Distinct users or conversations never share a cached reply. */
  lemma AiResponseKeyInjective(u1: int, h1: string, u2: int, h2: string)
    requires AiResponseKey(u1, h1) == AiResponseKey(u2, h2)
    ensures u1 == u2 && h1 == h2
  {
    var a := IntToString(u1);
    var b := IntToString(u2);
    assert AiResponseKey(u1, h1)[|AiResponsePrefix|..] == a + [':'] + h1;
    assert AiResponseKey(u2, h2)[|AiResponsePrefix|..] == b + [':'] + h2;
    IntToStringNoColon(u1);
    IntToStringNoColon(u2);
    SeparatedUnique(a, h1, b, h2, ':');
    IntToStringInjective(u1, u2);
  }

  /** Distinct users, or distinct endpoints of one user, have distinct burst counters. */
  lemma RateLimitKeyInjective(u1: int, e1: string, u2: int, e2: string)
    requires RateLimitKey(u1, e1) == RateLimitKey(u2, e2)
    ensures u1 == u2 && e1 == e2
  {
    var a := IntToString(u1);
    var b := IntToString(u2);
    assert RateLimitKey(u1, e1)[|RateLimitPrefix|..] == a + [':'] + e1;
    assert RateLimitKey(u2, e2)[|RateLimitPrefix|..] == b + [':'] + e2;
    IntToStringNoColon(u1);
    IntToStringNoColon(u2);
    SeparatedUnique(a, e1, b, e2, ':');
    IntToStringInjective(u1, u2);
  }

  /** Distinct users have distinct daily quota counters. */
  lemma DailyQueriesKeyInjective(u1: int, u2: int)
    requires DailyQueriesKey(u1) == DailyQueriesKey(u2)
    ensures u1 == u2
  {
    assert DailyQueriesKey(u1)[|DailyQueriesPrefix|..] == IntToString(u1);
    assert DailyQueriesKey(u2)[|DailyQueriesPrefix|..] == IntToString(u2);
    IntToStringInjective(u1, u2);
  }
}
