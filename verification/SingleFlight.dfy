/** Requests of the client: a cache in front of a table that lets concurrent equal requests share one fetch. */
module SingleFlight {
  import opened Common
  import opened CacheKey
  import opened ResponseCache

  /** What has become of a fetch. A fetch that throws at once settles before it is registered. */
  datatype Fate = InFlight | Succeeded(data: Payload) | Failed | ThrewAtOnce

  datatype Flight = Flight(request: Request, cache: bool, ttl: int, fate: Fate)

  /** What a caller was handed: a value, or the promise of a fetch. */
  datatype Source = FromCache(data: Payload) | FromFlight(flight: nat)

  datatype Caller = Caller(request: Request, source: Source)

  /** `cache` and `pending` are the service's fields; the rest is history and what the event loop holds. */
  datatype State = State(
    cache: Cache, pending: map<JsString, nat>,
    flights: seq<Flight>, callers: seq<Caller>, log: seq<Record>)

  const INITIAL := State(map[], map[], [], [], [])

  datatype Event =
    | Made(request: Request, cache: bool, ttl: int, now: int, throws: bool)
    | Settled(flight: nat, result: Option<Payload>, now: int)
    | Cleanup(now: int)
    | Clear(pattern: Option<JsString>)

  predicate UsesCache(request: Request, cache: bool) {
    cache && request.Method() == GET
  }

  /** The cached value that answers the request, if there is one and it is truthy. */
  function Hit(cache: Cache, request: Request, useCache: bool, now: int): Option<Payload> {
    if UsesCache(request, useCache) && Lookup(cache, Key(request), now).Some?
       && Lookup(cache, Key(request), now).value.truthy
    then Lookup(cache, Key(request), now)
    else None
  }

  /** The lookup at the start of a cached request may drop an expired entry. */
  function Consult(s: State, request: Request, useCache: bool, now: int): State {
    if UsesCache(request, useCache)
    then s.(cache := AfterLookup(s.cache, Key(request), now), log := s.log + [LookedUp(Key(request), now)])
    else s
  }

  function AddCaller(s: State, request: Request, source: Source): State {
    s.(callers := s.callers + [Caller(request, source)])
  }

  /** Nobody is fetching this key: start, then register. */
  function TakeOff(s: State, request: Request, cache: bool, ttl: int, throws: bool): State {
    s.(flights := s.flights + [Flight(request, cache, ttl, if throws then ThrewAtOnce else InFlight)],
       pending := s.pending[Key(request) := |s.flights|])
  }

  /** `request` up to the promise that it returns. */
  function Make(s: State, request: Request, cache: bool, ttl: int, now: int, throws: bool): State {
    var hit := Hit(s.cache, request, cache, now);
    var s1 := Consult(s, request, cache, now);
    if hit.Some? then AddCaller(s1, request, FromCache(hit.value))
    else if Key(request) in s1.pending then AddCaller(s1, request, FromFlight(s1.pending[Key(request)]))
    else AddCaller(TakeOff(s1, request, cache, ttl, throws), request, FromFlight(|s1.flights|))
  }

  /** A fetch comes back: store a good result if asked to, and leave the table. */
  function Land(s: State, r: nat, result: Option<Payload>, now: int): State
    requires r < |s.flights|
  {
    var f := s.flights[r];
    var stored :=
      if result.Some? && UsesCache(f.request, f.cache)
      then s.(cache := SetCache(s.cache, Key(f.request), result.value, now, f.ttl),
              log := s.log + [Stored(Key(f.request), result.value, now, f.ttl)])
      else s;
    stored.(flights := s.flights[r := f.(fate := if result.Some? then Succeeded(result.value) else Failed)],
            pending := s.pending - {Key(f.request)})
  }

  predicate Enabled(s: State, e: Event) {
    e.Settled? ==> e.flight < |s.flights| && s.flights[e.flight].fate == InFlight
  }

  function Next(s: State, e: Event): State {
    if !Enabled(s, e) then s
    else
      match e
      case Made(request, cache, ttl, now, throws) => Make(s, request, cache, ttl, now, throws)
      case Settled(r, result, now) => Land(s, r, result, now)
      case Cleanup(now) => s.(cache := CleanupCache(s.cache, now), log := s.log + [CleanedUp(now)])
      case Clear(pattern) => s.(cache := ClearCache(s.cache, pattern), log := s.log + [Cleared(pattern)])
  }

  function After(run: seq<Event>): State {
    if run == [] then INITIAL else Next(After(run[..|run| - 1]), run[|run| - 1])
  }

  // ---------------------------------------------------------------------------------
  // The invariant

  predicate Registered(f: Flight) {
    f.fate == InFlight || f.fate == ThrewAtOnce
  }

  predicate Brought(f: Flight, key: JsString, data: Payload) {
    f.fate == Succeeded(data) && Key(f.request) == key
  }

  /** Some fetch for this key brought this value. */
  ghost predicate Fetched(flights: seq<Flight>, key: JsString, data: Payload) {
    exists r | 0 <= r < |flights| :: Brought(flights[r], key, data)
  }

  ghost predicate TableOk(s: State) {
    && (forall k | k in s.pending :: s.pending[k] < |s.flights| && Key(s.flights[s.pending[k]].request) == k)
    && (forall k | k in s.pending :: Registered(s.flights[s.pending[k]]))
    && (forall r | 0 <= r < |s.flights| && Registered(s.flights[r]) ::
          Key(s.flights[r].request) in s.pending && s.pending[Key(s.flights[r].request)] == r)
  }

  ghost predicate CallerOk(s: State, c: Caller) {
    match c.source
    case FromFlight(r) => r < |s.flights| && Key(s.flights[r].request) == Key(c.request)
    case FromCache(data) => Fetched(s.flights, Key(c.request), data)
  }

  ghost predicate Inv(s: State) {
    && s.cache == Replay(s.log)
    && TableOk(s)
    && (forall c | 0 <= c < |s.callers| :: CallerOk(s, s.callers[c]))
    && (forall k | k in s.cache :: Fetched(s.flights, k, s.cache[k].data))
  }

  /** Fetches are only added, and those that have settled stay as they are. */
  ghost predicate Onward(flights: seq<Flight>, later: seq<Flight>) {
    && |flights| <= |later|
    && forall r | 0 <= r < |flights| ::
         later[r].request == flights[r].request
         && (flights[r].fate.Succeeded? ==> later[r].fate == flights[r].fate)
  }

  lemma FetchedStays(flights: seq<Flight>, later: seq<Flight>, key: JsString, data: Payload)
    requires Onward(flights, later) && Fetched(flights, key, data)
    ensures Fetched(later, key, data)
  {
    var r :| 0 <= r < |flights| && Brought(flights[r], key, data);
    assert Brought(later[r], key, data);
  }

  lemma CallersStay(s: State, s': State)
    requires forall c | 0 <= c < |s.callers| :: CallerOk(s, s.callers[c])
    requires Onward(s.flights, s'.flights) && s'.callers == s.callers
    ensures forall c | 0 <= c < |s'.callers| :: CallerOk(s', s'.callers[c])
  {
    forall c | 0 <= c < |s'.callers|
      ensures CallerOk(s', s'.callers[c])
    {
      assert CallerOk(s, s.callers[c]);
      if s.callers[c].source.FromCache? {
        FetchedStays(s.flights, s'.flights, Key(s.callers[c].request), s.callers[c].source.data);
      }
    }
  }

  lemma ReplayOne(log: seq<Record>, r: Record)
    ensures Replay(log + [r]) == Apply(Replay(log), r)
  {
    assert (log + [r])[..|log|] == log;
  }

  lemma ConsultKeeps(s: State, request: Request, useCache: bool, now: int)
    requires Inv(s)
    ensures Inv(Consult(s, request, useCache, now))
  {
    ReplayOne(s.log, LookedUp(Key(request), now));
    CallersStay(s, Consult(s, request, useCache, now));
  }

  lemma HitIsFetched(s: State, request: Request, useCache: bool, now: int)
    requires Inv(s) && Hit(s.cache, request, useCache, now).Some?
    ensures Fetched(s.flights, Key(request), Hit(s.cache, request, useCache, now).value)
  {
  }

  lemma AddCallerKeeps(s: State, request: Request, source: Source)
    requires Inv(s) && CallerOk(s, Caller(request, source))
    ensures Inv(AddCaller(s, request, source))
  {
    var s' := AddCaller(s, request, source);
    forall c | 0 <= c < |s'.callers|
      ensures CallerOk(s', s'.callers[c])
    {
      if c < |s.callers| {
        assert CallerOk(s, s.callers[c]);
      }
    }
  }

  lemma TakeOffKeeps(s: State, request: Request, cache: bool, ttl: int, throws: bool)
    requires Inv(s) && Key(request) !in s.pending
    ensures Inv(TakeOff(s, request, cache, ttl, throws))
  {
    hide Key, Replay;
    var s' := TakeOff(s, request, cache, ttl, throws);
    CallersStay(s, s');
    forall k | k in s'.cache
      ensures Fetched(s'.flights, k, s'.cache[k].data)
    {
      FetchedStays(s.flights, s'.flights, k, s.cache[k].data);
    }
  }

  lemma MakeKeeps(s: State, request: Request, cache: bool, ttl: int, now: int, throws: bool)
    requires Inv(s)
    ensures Inv(Make(s, request, cache, ttl, now, throws))
  {
    var hit := Hit(s.cache, request, cache, now);
    var s1 := Consult(s, request, cache, now);
    ConsultKeeps(s, request, cache, now);
    if hit.Some? {
      HitIsFetched(s, request, cache, now);
      AddCallerKeeps(s1, request, FromCache(hit.value));
    } else if Key(request) in s1.pending {
      AddCallerKeeps(s1, request, FromFlight(s1.pending[Key(request)]));
    } else {
      TakeOffKeeps(s1, request, cache, ttl, throws);
      AddCallerKeeps(TakeOff(s1, request, cache, ttl, throws), request, FromFlight(|s1.flights|));
    }
  }

  lemma LandTable(s: State, r: nat, result: Option<Payload>, now: int)
    requires TableOk(s) && r < |s.flights| && s.flights[r].fate == InFlight
    ensures TableOk(Land(s, r, result, now))
  {
    hide Key, SetCache;
  }

  lemma LandCache(s: State, r: nat, result: Option<Payload>, now: int)
    requires Inv(s) && r < |s.flights| && s.flights[r].fate == InFlight
    ensures
      var s' := Land(s, r, result, now);
      s'.cache == Replay(s'.log) && forall k | k in s'.cache :: Fetched(s'.flights, k, s'.cache[k].data)
  {
    var s' := Land(s, r, result, now);
    var f := s.flights[r];
    if result.Some? {
      ReplayOne(s.log, Stored(Key(f.request), result.value, now, f.ttl));
    }
    assert Onward(s.flights, s'.flights);
    forall k | k in s'.cache
      ensures Fetched(s'.flights, k, s'.cache[k].data)
    {
      if result.Some? && UsesCache(f.request, f.cache) && k == Key(f.request) {
        assert Brought(s'.flights[r], k, result.value);
      } else {
        FetchedStays(s.flights, s'.flights, k, s.cache[k].data);
      }
    }
  }

  lemma LandKeeps(s: State, r: nat, result: Option<Payload>, now: int)
    requires Inv(s) && r < |s.flights| && s.flights[r].fate == InFlight
    ensures Inv(Land(s, r, result, now))
  {
    LandTable(s, r, result, now);
    LandCache(s, r, result, now);
    CallersStay(s, Land(s, r, result, now));
  }

  /** Dropping entries from the cache, with a record of why, is always safe. */
  lemma DropKeeps(s: State, r: Record)
    requires Inv(s) && !r.Stored?
    ensures Inv(s.(cache := Apply(s.cache, r), log := s.log + [r]))
  {
    ReplayOne(s.log, r);
    CallersStay(s, s.(cache := Apply(s.cache, r), log := s.log + [r]));
  }

  lemma StepKeeps(s: State, e: Event)
    requires Inv(s)
    ensures Inv(Next(s, e))
  {
    if Enabled(s, e) {
      match e
      case Made(request, cache, ttl, now, throws) => MakeKeeps(s, request, cache, ttl, now, throws);
      case Settled(r, result, now) => LandKeeps(s, r, result, now);
      case Cleanup(now) => DropKeeps(s, CleanedUp(now));
      case Clear(pattern) => DropKeeps(s, Cleared(pattern));
    }
  }

  lemma {:induction false} RunKeeps(run: seq<Event>)
    ensures Inv(After(run))
  {
    if run != [] {
      RunKeeps(run[..|run| - 1]);
      StepKeeps(After(run[..|run| - 1]), run[|run| - 1]);
    }
  }

  // ---------------------------------------------------------------------------------
  // The theorems

  /** In every run at most one fetch per key is under way. */
  lemma OneFlightPerKey(run: seq<Event>, r: nat, q: nat)
    requires r < |After(run).flights| && q < |After(run).flights|
    requires After(run).flights[r].fate == InFlight && After(run).flights[q].fate == InFlight
    requires Key(After(run).flights[r].request) == Key(After(run).flights[q].request)
    ensures r == q
  {
    RunKeeps(run);
    hide Next;
    assert Registered(After(run).flights[r]) && Registered(After(run).flights[q]);
  }

  ghost predicate UnderWay(s: State, key: JsString) {
    exists r | 0 <= r < |s.flights| :: s.flights[r].fate == InFlight && Key(s.flights[r].request) == key
  }

  lemma TableIsExact(s: State)
    requires TableOk(s)
    ensures
      (forall k: JsString :: k in s.pending <==> UnderWay(s, k))
      <==> forall r | 0 <= r < |s.flights| :: s.flights[r].fate != ThrewAtOnce
  {
    if r :| 0 <= r < |s.flights| && s.flights[r].fate == ThrewAtOnce {
      var k := Key(s.flights[r].request);
      assert Registered(s.flights[r]);
      if UnderWay(s, k) {
        var q :| 0 <= q < |s.flights| && s.flights[q].fate == InFlight && Key(s.flights[q].request) == k;
        assert Registered(s.flights[q]);
      }
      assert k in s.pending && !UnderWay(s, k);
    } else {
      forall k: JsString
        ensures k in s.pending <==> UnderWay(s, k)
      {
        if k in s.pending {
          assert Registered(s.flights[s.pending[k]]);
        }
        if UnderWay(s, k) {
          var q :| 0 <= q < |s.flights| && s.flights[q].fate == InFlight && Key(s.flights[q].request) == k;
          assert Registered(s.flights[q]);
        }
      }
    }
  }

  /** The table holds exactly the keys under way if, and only if, no fetch has ever thrown at once. */
  lemma PendingIsUnderWay(run: seq<Event>)
    ensures
      var s := After(run);
      (forall k: JsString :: k in s.pending <==> UnderWay(s, k))
      <==> forall r | 0 <= r < |s.flights| :: s.flights[r].fate != ThrewAtOnce
  {
    RunKeeps(run);
    hide Next;
    TableIsExact(After(run));
  }

  /** A request for a key under way joins that fetch, unless the cache answers it, and starts no other. */
  lemma {:induction false} JoinsTheFlight(run: seq<Event>, r: nat, request: Request, cache: bool, ttl: int, now: int, throws: bool)
    requires r < |After(run).flights| && After(run).flights[r].fate == InFlight
    requires Key(After(run).flights[r].request) == Key(request)
    ensures
      var s := After(run);
      var s' := Make(s, request, cache, ttl, now, throws);
      && s'.flights == s.flights
      && |s'.callers| == |s.callers| + 1
      && s'.callers[|s.callers|] == Caller(request,
           if Hit(s.cache, request, cache, now).Some? then FromCache(Hit(s.cache, request, cache, now).value)
           else FromFlight(r))
  {
    RunKeeps(run);
    hide Next;
    assert Registered(After(run).flights[r]);
  }

  /** What a caller has received so far. */
  function Received(s: State, c: Caller): Option<Payload> {
    match c.source
    case FromCache(data) => Some(data)
    case FromFlight(r) =>
      if r < |s.flights| && s.flights[r].fate.Succeeded? then Some(s.flights[r].fate.data) else None
  }

  /** The fetch brought this value, for a request that asks for the same. */
  predicate Answers(f: Flight, request: Request, data: Payload) {
    && f.fate == Succeeded(data)
    && Key(f.request) == Key(request)
    && (COLON !in f.request.Method() && COLON !in request.Method() ==> SameRequest(f.request, request))
  }

  lemma ReceivedWasFetched(s: State, c: nat)
    requires Inv(s) && c < |s.callers| && Received(s, s.callers[c]).Some?
    ensures Fetched(s.flights, Key(s.callers[c].request), Received(s, s.callers[c]).value)
  {
    assert CallerOk(s, s.callers[c]);
    if s.callers[c].source.FromFlight? {
      assert Brought(s.flights[s.callers[c].source.flight], Key(s.callers[c].request), Received(s, s.callers[c]).value);
    }
  }

  /**
   Whatever a caller receives, fetched, shared or cached, is what the network answered to a
   request with the same key, and if neither method holds a colon, to a request with the same
   method, endpoint and body.
   */
  lemma {:induction false} AnswersMatchRequests(run: seq<Event>, c: nat)
    ensures
      var s := After(run);
      c < |s.callers| && Received(s, s.callers[c]).Some? ==>
        exists r | 0 <= r < |s.flights| :: Answers(s.flights[r], s.callers[c].request, Received(s, s.callers[c]).value)
  {
    RunKeeps(run);
    hide Next;
    var s := After(run);
    if c < |s.callers| && Received(s, s.callers[c]).Some? {
      var data := Received(s, s.callers[c]).value;
      ReceivedWasFetched(s, c);
      var r :| 0 <= r < |s.flights| && Brought(s.flights[r], Key(s.callers[c].request), data);
      var f := s.flights[r];
      if COLON !in f.request.Method() && COLON !in s.callers[c].request.Method() {
        KeyNamesRequest(f.request, s.callers[c].request);
      }
      assert Answers(f, s.callers[c].request, data);
    }
  }

  /** A request is answered from the cache exactly if it is a cached GET and the history owes it a truthy value. */
  lemma {:induction false} HitsAreOwed(run: seq<Event>, request: Request, cache: bool, now: int)
    requires NotAfter(After(run).log, now)
    ensures
      var s := After(run);
      var owed := Owed(s.log, Key(request), now);
      Hit(s.cache, request, cache, now)
      == if UsesCache(request, cache) && owed.Some? && owed.value.truthy then owed else None
  {
    RunKeeps(run);
    hide Next;
    LookupIsOwed(After(run).log, Key(request), now);
  }

  // ---------------------------------------------------------------------------------
  // Background cleanup

  predicate Timed(e: Event) {
    !e.Clear?
  }

  /** The clock never goes back in the run. */
  predicate Forward(run: seq<Event>) {
    forall i, j | 0 <= i < j < |run| && Timed(run[i]) && Timed(run[j]) :: run[i].now <= run[j].now
  }

  predicate NoLaterThan(run: seq<Event>, now: int) {
    forall i | 0 <= i < |run| && Timed(run[i]) :: run[i].now <= now
  }

  /** The run without the background cleanup. */
  function Uncleaned(run: seq<Event>): seq<Event> {
    if run == [] then []
    else Uncleaned(run[..|run| - 1]) + if run[|run| - 1].Cleanup? then [] else [run[|run| - 1]]
  }

  lemma StepLogs(s: State, e: Event)
    ensures
      var s' := Next(s, e);
      s'.log == s.log
      || (&& |s'.log| == |s.log| + 1 && s.log <= s'.log
          && (HasTime(s'.log[|s.log|]) ==> Timed(e) && TimeOf(s'.log[|s.log|]) == e.now))
  {
  }

  lemma {:induction false} LogNoLater(run: seq<Event>, now: int)
    requires NoLaterThan(run, now)
    ensures NotAfter(After(run).log, now)
  {
    if run != [] {
      var before, e := run[..|run| - 1], run[|run| - 1];
      assert forall i | 0 <= i < |before| :: before[i] == run[i];
      LogNoLater(before, now);
      StepLogs(After(before), e);
    }
  }

  /** s has cleaned up and t has not; otherwise the same has happened to both. */
  ghost predicate SameButCleanups(s: State, t: State) {
    && t.flights == s.flights && t.callers == s.callers && t.pending == s.pending
    && t.log == WithoutCleanups(s.log)
    && s.cache == Replay(s.log) && t.cache == Replay(t.log)
  }

  lemma WithoutOne(log: seq<Record>, r: Record)
    ensures WithoutCleanups(log + [r]) == if r.CleanedUp? then WithoutCleanups(log) else WithoutCleanups(log) + [r]
  {
    assert (log + [r])[..|log|] == log;
  }

  lemma RecordSame(s: State, t: State, r: Record)
    requires SameButCleanups(s, t) && !r.CleanedUp?
    ensures
      SameButCleanups(s.(cache := Apply(s.cache, r), log := s.log + [r]),
                      t.(cache := Apply(t.cache, r), log := t.log + [r]))
  {
    WithoutOne(s.log, r);
    ReplayOne(s.log, r);
    ReplayOne(t.log, r);
  }

  lemma ConsultSame(s: State, t: State, request: Request, cache: bool, now: int)
    requires SameButCleanups(s, t)
    ensures SameButCleanups(Consult(s, request, cache, now), Consult(t, request, cache, now))
  {
    RecordSame(s, t, LookedUp(Key(request), now));
    hide SameButCleanups, Key;
  }

  lemma HitSame(s: State, t: State, request: Request, cache: bool, now: int)
    requires SameButCleanups(s, t) && NotAfter(s.log, now)
    ensures Hit(s.cache, request, cache, now) == Hit(t.cache, request, cache, now)
  {
    CleanupIsInvisible(s.log, Key(request), now);
    hide Key, Lookup, Replay, WithoutCleanups;
  }

  lemma AddSame(s: State, t: State, request: Request, source: Source)
    requires SameButCleanups(s, t)
    ensures SameButCleanups(AddCaller(s, request, source), AddCaller(t, request, source))
  {
  }

  lemma TakeOffSame(s: State, t: State, request: Request, cache: bool, ttl: int, throws: bool)
    requires SameButCleanups(s, t)
    ensures SameButCleanups(TakeOff(s, request, cache, ttl, throws), TakeOff(t, request, cache, ttl, throws))
  {
    hide Key;
  }

  lemma MakeSame(s: State, t: State, request: Request, cache: bool, ttl: int, now: int, throws: bool)
    requires SameButCleanups(s, t) && NotAfter(s.log, now)
    ensures SameButCleanups(Make(s, request, cache, ttl, now, throws), Make(t, request, cache, ttl, now, throws))
  {
    HitSame(s, t, request, cache, now);
    ConsultSame(s, t, request, cache, now);
    var s1, t1 := Consult(s, request, cache, now), Consult(t, request, cache, now);
    assert t1.pending == s1.pending && t1.flights == s1.flights;
    hide Key, Hit, Consult, SameButCleanups, TakeOff, AddCaller;
    var hit := Hit(s.cache, request, cache, now);
    if hit.Some? {
      AddSame(s1, t1, request, FromCache(hit.value));
    } else if Key(request) in s1.pending {
      AddSame(s1, t1, request, FromFlight(s1.pending[Key(request)]));
    } else {
      TakeOffSame(s1, t1, request, cache, ttl, throws);
      var s2, t2 := TakeOff(s1, request, cache, ttl, throws), TakeOff(t1, request, cache, ttl, throws);
      AddSame(s2, t2, request, FromFlight(|s1.flights|));
    }
  }

  lemma LandSame(s: State, t: State, r: nat, result: Option<Payload>, now: int)
    requires SameButCleanups(s, t) && r < |s.flights|
    ensures SameButCleanups(Land(s, r, result, now), Land(t, r, result, now))
  {
    var f := s.flights[r];
    if result.Some? && UsesCache(f.request, f.cache) {
      RecordSame(s, t, Stored(Key(f.request), result.value, now, f.ttl));
    }
    hide Key, Replay, WithoutCleanups;
  }

  lemma StepSame(s: State, t: State, e: Event)
    requires SameButCleanups(s, t) && (Timed(e) ==> NotAfter(s.log, e.now))
    ensures SameButCleanups(Next(s, e), if e.Cleanup? then t else Next(t, e))
  {
    match e
    case Made(request, cache, ttl, now, throws) => MakeSame(s, t, request, cache, ttl, now, throws);
    case Settled(r, result, now) =>
      if Enabled(s, e) {
        LandSame(s, t, r, result, now);
      }
    case Cleanup(now) =>
      WithoutOne(s.log, CleanedUp(now));
      ReplayOne(s.log, CleanedUp(now));
    case Clear(pattern) => RecordSame(s, t, Cleared(pattern));
  }

  lemma {:induction false} RunSame(run: seq<Event>)
    requires Forward(run)
    ensures SameButCleanups(After(run), After(Uncleaned(run)))
  {
    if run != [] {
      var before, e := run[..|run| - 1], run[|run| - 1];
      var kept := Uncleaned(before);
      assert forall i | 0 <= i < |before| :: before[i] == run[i];
      RunSame(before);
      if Timed(e) {
        assert NoLaterThan(before, e.now);
        LogNoLater(before, e.now);
      }
      hide Next, SameButCleanups;
      StepSame(After(before), After(kept), e);
      assert (kept + [e])[..|kept|] == kept;
      assert e.Cleanup? ==> Uncleaned(run) == kept;
    }
  }

  /** Without background cleanup every caller gets the same answers and the same requests go out. */
  lemma {:induction false} CleanupChangesNothing(run: seq<Event>)
    requires Forward(run)
    ensures
      var s, t := After(run), After(Uncleaned(run));
      t.callers == s.callers && t.flights == s.flights && t.pending == s.pending
  {
    RunSame(run);
  }
}
