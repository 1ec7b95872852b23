/** The client's request service as an object: its cache, its pending table and the stretches of `request`. */
module Api {
  import opened Common
  import opened CacheKey
  import opened ResponseCache
  import opened ServedAnswers
  import opened SingleFlight

  const FIVE_MINUTES := 300000

  class ApiService {
    // The service's own fields
    var cache: Cache
    var pendingRequests: map<JsString, nat>

    // Fetches and callers so far, and the history of the cache
    var flights: seq<Flight>
    var callers: seq<Caller>
    var log: seq<Record>

    function Snapshot(): State
      reads this
    {
      State(cache, pendingRequests, flights, callers, log)
    }

    constructor ()
      ensures Snapshot() == INITIAL
    {
      cache, pendingRequests := map[], map[];
      flights, callers, log := [], [], [];
    }

    /** Deletes expired entries one by one. */
    method CleanupCache(now: int)
      modifies this`cache, this`log
      ensures Snapshot() == Next(old(Snapshot()), Cleanup(now))
      ensures forall k :: k in cache <==> k in old(cache) && old(cache)[k].expiresAt >= now
      ensures forall k | k in cache :: cache[k] == old(cache)[k]
    {
      var entries := cache;
      var todo := entries.Keys;
      while todo != {}
        invariant todo <= entries.Keys && log == old(log)
        invariant forall k :: k in cache <==> k in entries && (k in todo || entries[k].expiresAt >= now)
        invariant forall k | k in cache :: cache[k] == entries[k]
        decreases todo
      {
        var key :| key in todo;
        todo := todo - {key};
        if entries[key].expiresAt < now {
          cache := cache - {key};
        }
      }
      log := log + [CleanedUp(now)];
      assert cache == ResponseCache.CleanupCache(entries, now);
    }

    /** Returns the entry's value; an expired entry is deleted on the way. */
    method GetFromCache(key: JsString, now: int) returns (data: Option<Payload>)
      modifies this`cache, this`log
      ensures data == Lookup(old(cache), key, now)
      ensures data.Some? <==> key in old(cache) && old(cache)[key].expiresAt >= now
      ensures data.Some? ==> data.value == old(cache)[key].data
      ensures cache == AfterLookup(old(cache), key, now)
      ensures cache == if key in old(cache) && old(cache)[key].expiresAt < now then old(cache) - {key} else old(cache)
      ensures log == old(log) + [LookedUp(key, now)]
    {
      log := log + [LookedUp(key, now)];
      if key !in cache {
        return None;
      }
      var entry := cache[key];
      if entry.expiresAt < now {
        cache := cache - {key};
        return None;
      }
      return Some(entry.data);
    }

    method SetCache(key: JsString, data: Payload, now: int, ttl: int)
      modifies this`cache, this`log
      ensures cache == old(cache)[key := CacheEntry(data, now, now + ttl)]
      ensures log == old(log) + [Stored(key, data, now, ttl)]
    {
      cache := cache[key := CacheEntry(data, now, now + ttl)];
      log := log + [Stored(key, data, now, ttl)];
    }

    /** Deletes the keys that contain the pattern, or all of them. */
    method ClearCache(pattern: Option<JsString>)
      modifies this`cache, this`log
      ensures Snapshot() == Next(old(Snapshot()), Clear(pattern))
      ensures forall k :: k in cache <==>
        k in old(cache) && pattern.Some? && pattern.value != [] && !Includes(k, pattern.value)
      ensures forall k | k in cache :: cache[k] == old(cache)[k]
    {
      var entries := cache;
      if pattern.Some? && pattern.value != [] {
        var todo := entries.Keys;
        while todo != {}
          invariant todo <= entries.Keys && log == old(log)
          invariant forall k :: k in cache <==> k in entries && (k in todo || !Includes(k, pattern.value))
          invariant forall k | k in cache :: cache[k] == entries[k]
          decreases todo
        {
          var key :| key in todo;
          todo := todo - {key};
          if Includes(key, pattern.value) {
            cache := cache - {key};
          }
        }
      } else {
        cache := map[];
      }
      log := log + [Cleared(pattern)];
      assert cache == ResponseCache.ClearCache(entries, pattern);
    }

    /** `request` up to the promise or value that it hands to its caller. */
    method StartRequest(request: Request, cacheOption: Option<bool>, cacheTTL: Option<int>, now: int, throws: bool)
      returns (source: Source)
      modifies this
      ensures
        var useCache := cacheOption.Some? && cacheOption.value;
        var ttl := if cacheTTL.Some? then cacheTTL.value else 5 * 60 * 1000;
        && Requests(old(Snapshot()), Snapshot(), request, useCache, ttl, now, throws)
        && Snapshot() == Next(old(Snapshot()), Made(request, useCache, ttl, now, throws))
      ensures callers == old(callers) + [Caller(request, source)]
    {
      var useCache := cacheOption.Some? && cacheOption.value;
      var ttl := if cacheTTL.Some? then cacheTTL.value else FIVE_MINUTES;
      var cacheKey := Key(request);
      RequestsLead(Snapshot(), request, useCache, ttl, now, throws);
      hide Next, Key, Lookup, AfterLookup;
      var isGet := request.Method() == GET;
      if useCache && isGet {
        var cachedData := GetFromCache(cacheKey, now);
        if cachedData.Some? && cachedData.value.truthy {
          source := FromCache(cachedData.value);
          callers := callers + [Caller(request, source)];
          return;
        }
      }
      if cacheKey in pendingRequests {
        source := FromFlight(pendingRequests[cacheKey]);
        callers := callers + [Caller(request, source)];
        return;
      }
      var flight := |flights|;
      flights := flights + [Flight(request, useCache, ttl, if throws then ThrewAtOnce else InFlight)];
      pendingRequests := pendingRequests[cacheKey := flight];
      source := FromFlight(flight);
      callers := callers + [Caller(request, source)];
    }

    /** The fetch behind a promise comes back, with a value or an error. */
    method OnSettled(flight: nat, result: Option<Payload>, now: int)
      requires flight < |flights| && flights[flight].fate == InFlight
      modifies this
      ensures Settles(old(Snapshot()), Snapshot(), flight, result, now)
      ensures Snapshot() == Next(old(Snapshot()), Settled(flight, result, now))
    {
      var f := flights[flight];
      var cacheKey := Key(f.request);
      if result.Some? {
        if f.cache && f.request.Method() == GET {
          SetCache(cacheKey, result.value, now, f.ttl);
        }
        flights := flights[flight := f.(fate := Succeeded(result.value))];
      } else {
        flights := flights[flight := f.(fate := Failed)];
      }
      pendingRequests := pendingRequests - {cacheKey};
    }
  }
}
