/** The client's response cache against a plain log of what was stored, cleared, cleaned and looked up. */
module ResponseCache {
  import opened Common
  import opened CacheKey

  /** A response body; `truthy` tells what JavaScript makes of it in a condition. */
  datatype Payload = Payload(text: string, truthy: bool)

  datatype CacheEntry = CacheEntry(data: Payload, timestamp: int, expiresAt: int)

  type Cache = map<JsString, CacheEntry>

  datatype Record =
    | Stored(key: JsString, data: Payload, now: int, ttl: int)
    | Cleared(pattern: Option<JsString>)
    | LookedUp(key: JsString, now: int)
    | CleanedUp(now: int)

  predicate OccursAt(key: JsString, pattern: JsString, i: nat) {
    i + |pattern| <= |key| && key[i..i + |pattern|] == pattern
  }

  /** `key.includes(pattern)` */
  predicate Includes(key: JsString, pattern: JsString) {
    exists i | 0 <= i <= |key| :: OccursAt(key, pattern, i)
  }

  /** A missing or empty pattern clears everything. */
  predicate ClearsKey(pattern: Option<JsString>, key: JsString) {
    pattern.None? || pattern.value == [] || Includes(key, pattern.value)
  }

  // ---------------------------------------------------------------------------------
  // The cache operations

  function Drop(cache: Cache, key: JsString): Cache {
    cache - {key}
  }

  function SetCache(cache: Cache, key: JsString, data: Payload, now: int, ttl: int): Cache {
    cache[key := CacheEntry(data, now, now + ttl)]
  }

  function ClearCache(cache: Cache, pattern: Option<JsString>): Cache {
    map k | k in cache && !ClearsKey(pattern, k) :: cache[k]
  }

  function CleanupCache(cache: Cache, now: int): Cache {
    map k | k in cache && cache[k].expiresAt >= now :: cache[k]
  }

  /** What `getFromCache` returns. */
  function Lookup(cache: Cache, key: JsString, now: int): Option<Payload> {
    if key in cache && cache[key].expiresAt >= now then Some(cache[key].data) else None
  }

  /** What `getFromCache` leaves behind. */
  function AfterLookup(cache: Cache, key: JsString, now: int): Cache {
    if key in cache && cache[key].expiresAt < now then Drop(cache, key) else cache
  }

  function Apply(cache: Cache, r: Record): Cache {
    match r
    case Stored(key, data, now, ttl) => SetCache(cache, key, data, now, ttl)
    case Cleared(pattern) => ClearCache(cache, pattern)
    case LookedUp(key, now) => AfterLookup(cache, key, now)
    case CleanedUp(now) => CleanupCache(cache, now)
  }

  function Replay(log: seq<Record>): Cache {
    if log == [] then map[] else Apply(Replay(log[..|log| - 1]), log[|log| - 1])
  }

  // ---------------------------------------------------------------------------------
  // What the log says

  /** The latest value stored for the key since the last clear that matched it. */
  function Latest(log: seq<Record>, key: JsString): Option<CacheEntry> {
    if log == [] then None
    else
      var rest := log[..|log| - 1];
      match log[|log| - 1]
      case Stored(k, data, now, ttl) => if k == key then Some(CacheEntry(data, now, now + ttl)) else Latest(rest, key)
      case Cleared(pattern) => if ClearsKey(pattern, key) then None else Latest(rest, key)
      case _ => Latest(rest, key)
  }

  /** The answer that a log owes to a lookup: the latest value, while its time to live lasts. */
  function Owed(log: seq<Record>, key: JsString, now: int): Option<Payload> {
    var latest := Latest(log, key);
    if latest.Some? && now <= latest.value.expiresAt then Some(latest.value.data) else None
  }

  predicate HasTime(r: Record) {
    !r.Cleared?
  }

  function TimeOf(r: Record): int
    requires HasTime(r)
  {
    r.now
  }

  /** The clock read at most `now` throughout the log. */
  predicate NotAfter(log: seq<Record>, now: int) {
    forall i | 0 <= i < |log| && HasTime(log[i]) :: TimeOf(log[i]) <= now
  }

  /** A lookup or cleanup has seen the latest value of the key past its expiry. */
  predicate Purged(log: seq<Record>, key: JsString) {
    if log == [] then false
    else
      var rest := log[..|log| - 1];
      var latest := Latest(rest, key);
      match log[|log| - 1]
      case Stored(k, _, _, _) => k != key && Purged(rest, key)
      case Cleared(pattern) => !ClearsKey(pattern, key) && Purged(rest, key)
      case LookedUp(k, now) => Purged(rest, key) || (k == key && latest.Some? && latest.value.expiresAt < now)
      case CleanedUp(now) => Purged(rest, key) || (latest.Some? && latest.value.expiresAt < now)
  }

  /** In every run, whatever the clock does, the cache holds the latest value of a key until it is purged. */
  lemma {:induction false} ReplayFollowsLog(log: seq<Record>, key: JsString)
    ensures key in Replay(log) <==> Latest(log, key).Some? && !Purged(log, key)
    ensures key in Replay(log) ==> Replay(log)[key] == Latest(log, key).value
  {
    if log != [] {
      ReplayFollowsLog(log[..|log| - 1], key);
    }
  }

  /** A lookup returns what the log owes exactly if no reading past its expiry has purged it before. */
  lemma {:induction false} LookupExact(log: seq<Record>, key: JsString, now: int)
    ensures
      Lookup(Replay(log), key, now) == Owed(log, key, now)
      <==> !(Purged(log, key) && Latest(log, key).Some? && now <= Latest(log, key).value.expiresAt)
  {
    ReplayFollowsLog(log, key);
  }

  lemma {:induction false} PurgedAfterExpiry(log: seq<Record>, key: JsString, now: int)
    requires NotAfter(log, now)
    ensures Purged(log, key) && Latest(log, key).Some? ==> Latest(log, key).value.expiresAt < now
  {
    if log != [] {
      var rest := log[..|log| - 1];
      assert forall i | 0 <= i < |rest| :: rest[i] == log[i];
      PurgedAfterExpiry(rest, key, now);
    }
  }

  /**
   Under a clock that has not gone back, a lookup returns exactly the latest value stored for
   its key since the last clear that matched it, if that value has not expired.
   */
  lemma {:induction false} LookupIsOwed(log: seq<Record>, key: JsString, now: int)
    requires NotAfter(log, now)
    ensures Lookup(Replay(log), key, now) == Owed(log, key, now)
  {
    LookupExact(log, key, now);
    PurgedAfterExpiry(log, key, now);
  }

  /** The log without its background cleanups. */
  function WithoutCleanups(log: seq<Record>): seq<Record> {
    if log == [] then []
    else WithoutCleanups(log[..|log| - 1]) + if log[|log| - 1].CleanedUp? then [] else [log[|log| - 1]]
  }

  lemma {:induction false} CleanupsDoNotCount(log: seq<Record>, key: JsString)
    ensures Latest(WithoutCleanups(log), key) == Latest(log, key)
  {
    if log != [] {
      var rest := log[..|log| - 1];
      CleanupsDoNotCount(rest, key);
      var kept := WithoutCleanups(rest);
      if log[|log| - 1].CleanedUp? {
        assert WithoutCleanups(log) == kept;
      } else {
        assert WithoutCleanups(log) == kept + [log[|log| - 1]];
        assert WithoutCleanups(log)[..|kept|] == kept;
      }
    }
  }

  lemma {:induction false} CleanupsAreTimed(log: seq<Record>, now: int)
    requires NotAfter(log, now)
    ensures NotAfter(WithoutCleanups(log), now)
  {
    if log != [] {
      var rest := log[..|log| - 1];
      assert forall i | 0 <= i < |rest| :: rest[i] == log[i];
      CleanupsAreTimed(rest, now);
    }
  }

  /** Erasing every background cleanup from a run changes no answer. */
  lemma CleanupIsInvisible(log: seq<Record>, key: JsString, now: int)
    requires NotAfter(log, now)
    ensures Lookup(Replay(log), key, now) == Lookup(Replay(WithoutCleanups(log)), key, now)
  {
    LookupIsOwed(log, key, now);
    CleanupsAreTimed(log, now);
    LookupIsOwed(WithoutCleanups(log), key, now);
    CleanupsDoNotCount(log, key);
  }

  /** When the clock goes back, a cleanup can lose a value that is still owed. */
  lemma ClockGoingBack()
    ensures
      var data := Payload("x", true);
      var log := [Stored(GET, data, 0, 10), CleanedUp(20)];
      Owed(log, GET, 5) == Some(data) && Lookup(Replay(log), GET, 5) == None
  {
    var data := Payload("x", true);
    var log := [Stored(GET, data, 0, 10), CleanedUp(20)];
    assert log[..1] == [Stored(GET, data, 0, 10)] && log[..1][..0] == [];
    assert Replay([]) == map[];
    assert Replay(log[..1]) == map[GET := CacheEntry(data, 0, 10)];
    assert Latest(log[..1], GET) == Some(CacheEntry(data, 0, 10));
  }

  lemma OccursWithin(front: JsString, s: JsString, back: JsString, pattern: JsString)
    requires Includes(s, pattern)
    ensures Includes(front + s + back, pattern)
  {
    var i :| 0 <= i <= |s| && OccursAt(s, pattern, i);
    var j := |front| + i;
    assert (front + s + back)[j..j + |pattern|] == s[i..i + |pattern|];
    assert OccursAt(front + s + back, pattern, j);
  }

  /** Clearing by a resource name leaves no request behind whose endpoint contains the name. */
  lemma ClearReachesEndpoint(cache: Cache, r: Request, pattern: JsString)
    requires Includes(r.endpoint, pattern)
    ensures Key(r) !in ClearCache(cache, Some(pattern))
  {
    OccursWithin(r.Method() + [COLON], r.endpoint, [COLON] + BodyPart(r.Body()), pattern);
    assert Key(r) == r.Method() + [COLON] + r.endpoint + ([COLON] + BodyPart(r.Body()));
  }
}
