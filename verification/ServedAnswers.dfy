/**
 What becomes of an answer: which answers are kept in the client's cache, for how long, and
 which requests they serve, said of the requests' own methods and flags.
 */
module ServedAnswers {
  import opened CacheKey
  import opened Common
  import opened ResponseCache
  import opened SingleFlight

  /** The cache holds a truthy value for the key that has not expired. */
  predicate Fresh(s: State, key: JsString, now: int) {
    key in s.cache && s.cache[key].expiresAt >= now && s.cache[key].data.truthy
  }

  /** What a request does: a cached GET looks into the cache first; then it joins a pending fetch, or starts one. */
  ghost predicate Requests(s: State, s': State, request: Request, cache: bool, ttl: int, now: int, throws: bool) {
    var key, looks := Key(request), cache && request.Method() == GET;
    && s'.log == s.log + (if looks then [LookedUp(key, now)] else [])
    && s'.cache == (if looks && key in s.cache && s.cache[key].expiresAt < now then s.cache - {key} else s.cache)
    && if looks && Fresh(s, key, now) then
         && s'.callers == s.callers + [Caller(request, FromCache(s.cache[key].data))]
         && s'.flights == s.flights && s'.pending == s.pending
       else if key in s.pending then
         && s'.callers == s.callers + [Caller(request, FromFlight(s.pending[key]))]
         && s'.flights == s.flights && s'.pending == s.pending
       else
         && s'.callers == s.callers + [Caller(request, FromFlight(|s.flights|))]
         && s'.flights == s.flights + [Flight(request, cache, ttl, if throws then ThrewAtOnce else InFlight)]
         && s'.pending == s.pending[key := |s.flights|]
  }

  /** What a settlement does: only the good answer to a cached GET is kept, until its time to live is over. */
  ghost predicate Settles(s: State, s': State, r: nat, result: Option<Payload>, now: int)
    requires r < |s.flights|
  {
    var f := s.flights[r];
    var key := Key(f.request);
    && s'.callers == s.callers && s'.pending == s.pending - {key}
    && s'.flights == s.flights[r := Flight(f.request, f.cache, f.ttl, if result.Some? then Succeeded(result.value) else Failed)]
    && if result.Some? && f.cache && f.request.Method() == GET then
         && s'.cache == s.cache[key := CacheEntry(result.value, now, now + f.ttl)]
         && s'.log == s.log + [Stored(key, result.value, now, f.ttl)]
       else s'.cache == s.cache && s'.log == s.log
  }

  /** What the look into the cache finds and leaves. */
  lemma LooksPlainly(s: State, request: Request, cache: bool, now: int)
    ensures
      var key, looks := Key(request), cache && request.Method() == GET;
      && Hit(s.cache, request, cache, now) == (if looks && Fresh(s, key, now) then Some(s.cache[key].data) else None)
      && Consult(s, request, cache, now) ==
           State(if looks && key in s.cache && s.cache[key].expiresAt < now then s.cache - {key} else s.cache,
                 s.pending, s.flights, s.callers, s.log + (if looks then [LookedUp(key, now)] else []))
  {
    hide Key;
  }

  lemma RequestExactly(s: State, s': State, request: Request, cache: bool, ttl: int, now: int, throws: bool)
    ensures Requests(s, s', request, cache, ttl, now, throws) <==> s' == Next(s, Made(request, cache, ttl, now, throws))
  {
    LooksPlainly(s, request, cache, now);
    hide Key, Hit, Consult, Fresh;
  }

  lemma RequestsLead(s: State, request: Request, cache: bool, ttl: int, now: int, throws: bool)
    ensures forall s' | Requests(s, s', request, cache, ttl, now, throws) :: s' == Next(s, Made(request, cache, ttl, now, throws))
  {
    forall s' | Requests(s, s', request, cache, ttl, now, throws)
      ensures s' == Next(s, Made(request, cache, ttl, now, throws))
    {
      RequestExactly(s, s', request, cache, ttl, now, throws);
    }
  }

  lemma SettleExactly(s: State, s': State, r: nat, result: Option<Payload>, now: int)
    requires r < |s.flights| && s.flights[r].fate == InFlight
    ensures Settles(s, s', r, result, now) <==> s' == Next(s, Settled(r, result, now))
  {
    hide Key;
  }

  /** The settlement of anything but the good answer to a cached GET leaves the cache as it was. */
  lemma OthersAreNotKept(s: State, r: nat, result: Option<Payload>, now: int)
    requires r < |s.flights| && s.flights[r].fate == InFlight
    requires result.None? || !s.flights[r].cache || s.flights[r].request.Method() != GET
    ensures Next(s, Settled(r, result, now)).cache == s.cache
  {
    SettleExactly(s, Next(s, Settled(r, result, now)), r, result, now);
  }

  /** A fetch belongs to the request that started it, with the caller's flag and time to live, whatever happens. */
  lemma {:induction false} FetchKeepsRequest(run: seq<Event>, r: nat, more: seq<Event>)
    requires r < |After(run).flights|
    ensures r < |After(run + more).flights|
    ensures
      var f, g := After(run).flights[r], After(run + more).flights[r];
      g.request == f.request && g.cache == f.cache && g.ttl == f.ttl
    decreases |more|
  {
    if more == [] {
      assert run + more == run;
    } else {
      var before, e := more[..|more| - 1], more[|more| - 1];
      FetchKeepsRequest(run, r, before);
      assert (run + more)[..|run + more| - 1] == run + before;
      StepKeepsRequest(After(run + before), e, r);
    }
  }

  lemma StepKeepsRequest(s: State, e: Event, r: nat)
    requires r < |s.flights|
    ensures r < |Next(s, e).flights|
    ensures
      var f, g := s.flights[r], Next(s, e).flights[r];
      g.request == f.request && g.cache == f.cache && g.ttl == f.ttl
  {
  }

  /** Throughout the rest of a run, a fetch holds the request, flag and time to live of the call that started it. */
  lemma {:induction false} FetchIsItsCall(run: seq<Event>, m: nat, r: nat)
    requires m < |run| && run[m].Made? && r == |After(run[..m]).flights| < |After(run[..m + 1]).flights|
    ensures r < |After(run).flights|
    ensures
      var f := After(run).flights[r];
      f.request == run[m].request && f.cache == run[m].cache && f.ttl == run[m].ttl
  {
    var first := run[..m + 1];
    assert first[..m] == run[..m] && run == first + run[m + 1..];
    FetchKeepsRequest(first, r, run[m + 1..]);
    RequestExactly(After(run[..m]), After(first), run[m].request, run[m].cache, run[m].ttl, run[m].now, run[m].throws);
    hide Key, Next, Fresh;
  }

  // ---------------------------------------------------------------------------------
  // How long an answer serves

  /** The event clears the key, or brings another answer for it that is kept. */
  predicate Touches(s: State, e: Event, key: JsString) {
    || (e.Clear? && ClearsKey(e.pattern, key))
    || (&& e.Settled? && Enabled(s, e) && e.result.Some?
        && var f := s.flights[e.flight]; f.cache && f.request.Method() == GET && Key(f.request) == key)
  }

  /** No event after the first n touches the key. */
  predicate Untouched(run: seq<Event>, n: nat, key: JsString)
    requires n <= |run|
    decreases |run| - n
  {
    |run| == n
    || (Untouched(run[..|run| - 1], n, key) && !Touches(After(run[..|run| - 1]), run[|run| - 1], key))
  }

  lemma QuietKeepsLatest(s: State, e: Event, key: JsString)
    requires !Touches(s, e, key)
    ensures Latest(Next(s, e).log, key) == Latest(s.log, key)
  {
    var s' := Next(s, e);
    hide Key, ClearsKey;
    if s'.log != s.log {
      StepLogs(s, e);
      assert s'.log[..|s.log|] == s.log;
    }
  }

  lemma {:induction false} LatestStays(run: seq<Event>, n: nat, key: JsString)
    requires n <= |run| && Untouched(run, n, key)
    ensures Latest(After(run).log, key) == Latest(After(run[..n]).log, key)
    decreases |run|
  {
    if |run| == n {
      assert run[..n] == run;
    } else {
      var before := run[..|run| - 1];
      assert before[..n] == run[..n];
      LatestStays(before, n, key);
      hide Latest, Touches, Next;
      QuietKeepsLatest(After(before), run[|run| - 1], key);
    }
  }

  lemma SettledIsLatest(s: State, r: nat, data: Payload, now: int)
    requires r < |s.flights| && s.flights[r].fate == InFlight
    requires s.flights[r].cache && s.flights[r].request.Method() == GET
    ensures
      var f := s.flights[r];
      Latest(Next(s, Settled(r, Some(data), now)).log, Key(f.request)) == Some(CacheEntry(data, now, now + f.ttl))
  {
    var f, s' := s.flights[r], Next(s, Settled(r, Some(data), now));
    SettleExactly(s, s', r, Some(data), now);
    assert s'.log[..|s.log|] == s.log;
  }

  /** Event n of the run brings this value as the good answer to a cached GET for the key. */
  ghost predicate Brings(run: seq<Event>, n: nat, key: JsString, data: Payload, until: int) {
    && n < |run| && run[n].Settled? && run[n].result == Some(data) && Enabled(After(run[..n]), run[n])
    && var f := After(run[..n]).flights[run[n].flight];
       && f.cache && f.request.Method() == GET && Key(f.request) == key
       && until == run[n].now + f.ttl
  }

  lemma BroughtIsLatest(run: seq<Event>, n: nat, key: JsString, data: Payload, until: int)
    requires Brings(run, n, key, data, until) && Untouched(run, n + 1, key)
    ensures
      var latest := Latest(After(run).log, key);
      latest.Some? && latest.value.data == data && latest.value.expiresAt == until
  {
    SettledIsLatest(After(run[..n]), run[n].flight, data, run[n].now);
    assert run[..n + 1][..n] == run[..n];
    LatestStays(run, n + 1, key);
  }

  /**
   In every run under a clock that does not go back: once a cached GET has been answered, and
   until its time to live is over, the key is cleared or another answer is kept for it, every
   cached GET for the key is handed this answer, if it is truthy, and starts no fetch.
   */
  lemma {:induction false} AnswerServes(run: seq<Event>, n: nat, data: Payload, until: int,
                                        request: Request, ttl: int, now: int, throws: bool)
    requires Forward(run) && NoLaterThan(run, now) && now <= until && data.truthy
    requires request.Method() == GET
    requires Brings(run, n, Key(request), data, until) && Untouched(run, n + 1, Key(request))
    ensures
      var s := After(run);
      var s' := Next(s, Made(request, true, ttl, now, throws));
      && s'.callers == s.callers + [Caller(request, FromCache(data))]
      && s'.flights == s.flights && s'.pending == s.pending
  {
    var s := After(run);
    BroughtIsLatest(run, n, Key(request), data, until);
    LogNoLater(run, now);
    HitsAreOwed(run, request, true, now);
    hide After, Key, Latest, Lookup, Forward, NoLaterThan, NotAfter;
    assert Hit(s.cache, request, true, now) == Some(data);
    hide Hit;
  }
}
