/** What every event of every run keeps, whatever settles late, fails or shares an id. */
module QueueInvariant {
  import opened Common
  import opened Backoff
  import opened QueueModel

  /** e is one of the objects made so far. */
  predicate Known(s: State, e: Entry) {
    e.ticket < |s.issued| && s.issued[e.ticket] == e
  }

  /** The route has reported its error and cannot report another. */
  predicate Spent(a: Attempt, route: Route) {
    if route.ByPromise? then a.promise in {WritingFailed, Settled} else a.timer in {TimerWritingFailed, TimerDone}
  }

  /** A retry belongs to a spent route of an earlier attempt, one level down, within the retry budget. */
  predicate WellBorn(s: State, t: nat)
    requires t < |s.issued|
  {
    var e := s.issued[t];
    && e.ticket == t
    && e.job < |s.works|
    && e.work == s.works[e.job]
    && match e.origin
       case First => e.retryCount == 0
       case RetryOf(parent, route) =>
         && parent < t
         && parent in s.attempts
         && Spent(s.attempts[parent], route)
         && s.issued[parent].job == e.job
         && e.retryCount == s.issued[parent].retryCount + 1
         && e.retryCount <= e.work.maxRetries
  }

  ghost predicate Objects(s: State) {
    forall t {:trigger WellBorn(s, t)} | 0 <= t < |s.issued| :: WellBorn(s, t)
  }

  /** Two objects stem from different enqueues, different attempts or different routes. */
  predicate Unrelated(e: Entry, f: Entry) {
    e.origin == f.origin ==> e.origin.First? && e.job != f.job
  }

  ghost predicate OneBirth(s: State) {
    forall t, u {:trigger Unrelated(s.issued[t], s.issued[u])} | 0 <= t < u < |s.issued| ::
      Unrelated(s.issued[t], s.issued[u])
  }

  /** An object waits in one place at most, and only while it has not been started. */
  ghost predicate Pools(s: State) {
    && (forall i | 0 <= i < |s.queue| ::
          Known(s, s.queue[i]) && s.queue[i].ticket !in s.attempts && s.queue[i] !in s.parked)
    && (forall i, j | 0 <= i < j < |s.queue| :: s.queue[i].ticket != s.queue[j].ticket)
    && (forall e | e in s.parked :: Known(s, e) && e.ticket !in s.attempts)
  }

  ghost predicate Slots(s: State) {
    && (forall t | t in s.attempts :: t < |s.issued| && s.attempts[t].entry == s.issued[t])
    && (forall id | id in s.running ::
          s.running[id] in s.attempts && s.attempts[s.running[id]].entry.work.executionId == id)
  }

  predicate SeparateStarts(r: Record, q: Record) {
    r.Started? && q.Started? ==> r.entry.ticket != q.entry.ticket
  }

  predicate StartOk(s: State, k: nat)
    requires k < |s.log| && s.log[k].Started?
  {
    Known(s, s.log[k].entry) && s.log[k].entry.ticket in s.attempts && s.log[k].at >= s.log[k].entry.scheduledAt
  }

  /** The log tells of every start once, and of none before it was due. */
  ghost predicate Journal(s: State) {
    && (forall k {:trigger StartOk(s, k)} | 0 <= k < |s.log| && s.log[k].Started? :: StartOk(s, k))
    && (forall k, l {:trigger SeparateStarts(s.log[k], s.log[l])} | 0 <= k < l < |s.log| ::
          SeparateStarts(s.log[k], s.log[l]))
  }

  ghost predicate Inv(config: Config, s: State) {
    Objects(s) && OneBirth(s) && Pools(s) && Slots(s) && Journal(s) && |s.running| <= config.maxConcurrent
  }

  // ---------------------------------------------------------------------------------
  // Steps that only move phases forward

  /** Attempts keep their entries and never forget a spent route. */
  ghost predicate Onward(before: map<nat, Attempt>, after: map<nat, Attempt>) {
    forall t | t in before :: t in after && Outlives(before[t], after[t])
  }

  predicate Outlives(a: Attempt, b: Attempt) {
    && b.entry == a.entry
    && (Spent(a, ByPromise) ==> Spent(b, ByPromise))
    && (Spent(a, ByTimer) ==> Spent(b, ByTimer))
  }

  /** s' differs from s in phases, freed slots, cancellations and drains only. */
  ghost predicate Advances(s: State, s': State) {
    && s'.queue == s.queue && s'.parked == s.parked && s'.works == s.works && s'.issued == s.issued && s'.log == s.log
    && s'.attempts.Keys == s.attempts.Keys
    && Onward(s.attempts, s'.attempts)
    && s'.running.Keys <= s.running.Keys
    && (forall id | id in s'.running :: s'.running[id] == s.running[id])
  }

  lemma FewerSlots(small: map<string, nat>, big: map<string, nat>)
    requires small.Keys <= big.Keys
    ensures |small| <= |big|
  {
    assert big.Keys == small.Keys + (big.Keys - small.Keys);
    assert |big.Keys| == |small.Keys| + |big.Keys - small.Keys|;
  }

  lemma OneMoreSlot(running: map<string, nat>, id: string, handle: nat)
    ensures |running[id := handle]| <= |running| + 1
  {
    assert running[id := handle].Keys == running.Keys + {id};
  }

  lemma ObjectsStay(s: State, s': State)
    requires Objects(s) && OneBirth(s)
    requires s'.issued == s.issued && s'.works == s.works && Onward(s.attempts, s'.attempts)
    ensures Objects(s') && OneBirth(s')
  {
    forall t | 0 <= t < |s'.issued|
      ensures WellBorn(s', t)
    {
      assert WellBorn(s, t);
    }
    forall t, u | 0 <= t < u < |s'.issued|
      ensures Unrelated(s'.issued[t], s'.issued[u])
    {
      assert Unrelated(s.issued[t], s.issued[u]);
    }
  }

  lemma JournalSame(s: State, s': State)
    requires Journal(s)
    requires s'.log == s.log && s'.issued == s.issued && s.attempts.Keys <= s'.attempts.Keys
    ensures Journal(s')
  {
    forall k | 0 <= k < |s'.log| && s'.log[k].Started?
      ensures StartOk(s', k)
    {
      assert StartOk(s, k);
    }
  }

  lemma AdvanceKeeps(config: Config, s: State, s': State)
    requires Inv(config, s) && Advances(s, s')
    ensures Inv(config, s')
  {
    FewerSlots(s'.running, s.running);
    ObjectsStay(s, s');
    JournalSame(s, s');
  }

  lemma ReleaseAdvances(s: State, executionId: string)
    ensures Advances(s, ReleaseSlot(s, executionId))
  {
  }

  lemma ResolveAdvances(s: State, t: nat)
    requires t in s.attempts && s.attempts[t].promise == Calling
    ensures Advances(s, Resolve(s, t))
  {
  }

  lemma ExpireAdvances(s: State, t: nat)
    requires t in s.attempts && s.attempts[t].timer == Armed
    ensures Advances(s, Expire(s, t))
  {
  }

  lemma PromiseAdvances(s: State, t: nat, phase: PromisePhase)
    requires t in s.attempts
    requires phase in {Settled, WritingFailed} || !Spent(s.attempts[t], ByPromise)
    ensures Advances(s, SetPromise(s, t, phase))
  {
  }

  lemma TimerAdvances(s: State, t: nat, phase: TimerPhase)
    requires t in s.attempts && phase in {TimerDone, TimerWritingFailed}
    ensures Advances(s, SetTimer(s, t, phase))
  {
  }

  lemma RouteAdvances(s: State, t: nat, route: Route)
    requires t in s.attempts
    ensures Advances(s, CloseRoute(s, t, route))
    ensures Advances(s, AwaitFailedWrite(s, t, route))
  {
    if route.ByPromise? {
      PromiseAdvances(s, t, Settled);
      PromiseAdvances(s, t, WritingFailed);
    } else {
      TimerAdvances(s, t, TimerDone);
      TimerAdvances(s, t, TimerWritingFailed);
    }
  }

  /** A record that is neither a start nor a retry changes nothing that the invariant says. */
  lemma RecordKeeps(config: Config, s: State, r: Record)
    requires Inv(config, s) && !r.Started?
    ensures Inv(config, Append(s, r))
  {
    var s' := Append(s, r);
    ObjectsStay(s, s');
    JournalGrows(s, s', r);
  }

  /** Appending a record keeps the journal when the record itself is accounted for. */
  lemma JournalGrows(s: State, s': State, r: Record)
    requires Journal(s)
    requires s'.log == s.log + [r]
    requires s.issued <= s'.issued
    requires s.attempts.Keys <= s'.attempts.Keys
    requires r.Started? ==> StartOk(s', |s.log|) && r.entry.ticket !in s.attempts
    ensures Journal(s')
  {
    forall k | 0 <= k < |s'.log| && s'.log[k].Started?
      ensures StartOk(s', k)
    {
      if k < |s.log| {
        assert StartOk(s, k);
      }
    }
    forall k, l | 0 <= k < l < |s'.log|
      ensures SeparateStarts(s'.log[k], s'.log[l])
    {
      if l < |s.log| {
        assert SeparateStarts(s.log[k], s.log[l]);
      } else if s.log[k].Started? {
        assert StartOk(s, k);
      }
    }
  }

  // ---------------------------------------------------------------------------------
  // Moves of one entry

  /** A new object at the end of the history is born well and apart from all others. */
  lemma ObjectsGrow(s: State, s': State, e: Entry)
    requires Objects(s) && OneBirth(s)
    requires s'.issued == s.issued + [e] && s.works <= s'.works && Onward(s.attempts, s'.attempts)
    requires WellBorn(s', |s.issued|)
    requires forall t | 0 <= t < |s.issued| :: WellBorn(s, t) ==> Unrelated(s.issued[t], e)
    ensures Objects(s') && OneBirth(s')
  {
    forall t | 0 <= t < |s'.issued|
      ensures WellBorn(s', t)
    {
      if t < |s.issued| {
        assert WellBorn(s, t);
      }
    }
    forall t, u | 0 <= t < u < |s'.issued|
      ensures Unrelated(s'.issued[t], s'.issued[u])
    {
      if u < |s.issued| {
        assert Unrelated(s.issued[t], s.issued[u]);
      } else {
        assert WellBorn(s, t);
      }
    }
  }

  /** A new object joins the queue anywhere. */
  lemma PoolsGrow(s: State, s': State, i: nat, e: Entry)
    requires Pools(s) && Slots(s) && i <= |s.queue|
    requires s'.issued == s.issued + [e] && e.ticket == |s.issued|
    requires s'.queue == InsertAt(s.queue, i, e) && s'.parked == s.parked && s'.attempts.Keys == s.attempts.Keys
    ensures Pools(s')
  {
    forall k | 0 <= k < |s'.queue|
      ensures s'.queue[k] == if k < i then s.queue[k] else if k == i then e else s.queue[k - 1]
    {
    }
  }

  lemma InsertKeeps(config: Config, s: State, work: Work, at: int)
    requires Inv(config, s)
    ensures Inv(config, Insert(s, work, at))
  {
    var s' := Insert(s, work, at);
    var e := s'.issued[|s.issued|];
    ObjectsGrow(s, s', e);
    PoolsGrow(s, s', InsertIndex(s.queue, work.priority), e);
    JournalGrows(s, s', Enqueued(e));
  }

  lemma ParkKeeps(config: Config, s: State)
    requires Inv(config, s) && s.queue != []
    ensures Inv(config, s.(queue := s.queue[1..], parked := s.parked + {s.queue[0]}))
  {
    var s' := s.(queue := s.queue[1..], parked := s.parked + {s.queue[0]});
    ObjectsStay(s, s');
    JournalSame(s, s');
  }

  lemma UnparkKeeps(config: Config, s: State, e: Entry)
    requires Inv(config, s) && e in s.parked
    ensures Inv(config, Unpark(s, e))
  {
    var s' := Unpark(s, e);
    ObjectsStay(s, s');
    forall i | 0 <= i < |s.queue|
      ensures s.queue[i].ticket != e.ticket
    {
      assert Known(s, s.queue[i]) && Known(s, e);
    }
    JournalSame(s, s');
  }

  lemma StartPools(s: State, now: int)
    requires Pools(s) && Slots(s) && s.queue != []
    ensures
      var s' := Start(s.(queue := s.queue[1..]), s.queue[0], now);
      Pools(s') && Slots(s')
  {
    var e := s.queue[0];
    var s' := Start(s.(queue := s.queue[1..]), e, now);
    assert Known(s, e);
    forall p | p in s'.parked
      ensures Known(s', p) && p.ticket !in s'.attempts
    {
      assert Known(s, p);
    }
  }

  /** The head of the queue belongs to an accepted job and has not been started. */
  lemma HeadFresh(config: Config, s: State)
    requires Inv(config, s)
    ensures s.queue != [] ==> s.queue[0].ticket !in s.attempts && s.queue[0].job < |s.works|
  {
    if s.queue != [] {
      assert Known(s, s.queue[0]) && WellBorn(s, s.queue[0].ticket);
    }
  }

  lemma StartJournal(s: State, now: int)
    requires Pools(s) && Journal(s) && s.queue != [] && s.queue[0].scheduledAt <= now
    ensures Journal(Start(s.(queue := s.queue[1..]), s.queue[0], now))
  {
    var s' := Start(s.(queue := s.queue[1..]), s.queue[0], now);
    assert Known(s, s.queue[0]);
    assert StartOk(s', |s.log|);
    JournalGrows(s, s', Started(s.queue[0], now));
  }

  lemma StartKeeps(config: Config, s: State, now: int)
    requires Inv(config, s) && s.queue != [] && |s.running| < config.maxConcurrent
    requires s.queue[0].scheduledAt <= now
    ensures Inv(config, Start(s.(queue := s.queue[1..]), s.queue[0], now))
  {
    var e := s.queue[0];
    var s' := Start(s.(queue := s.queue[1..]), e, now);
    StartPools(s, now);
    StartJournal(s, now);
    OneMoreSlot(s.running, e.work.executionId, e.ticket);
    HeadFresh(config, s);
    ObjectsStay(s, s');
  }

  lemma OthersKeep(config: Config, s: State, drains: nat, cancels: seq<CancelCall>)
    requires Inv(config, s)
    ensures Inv(config, s.(drains := drains, cancels := cancels))
  {
    AdvanceKeeps(config, s, s.(drains := drains, cancels := cancels));
  }

  /** The three things that a drain can come to. */
  lemma DrainCases(config: Config, s: State, now: int)
    ensures
      var s' := Drain(config, s, now);
      || s' == s
      || (&& s.queue != []
          && s.queue[0].scheduledAt > now
          && s' == s.(queue := s.queue[1..], parked := s.parked + {s.queue[0]}))
      || (&& s.queue != []
          && |s.running| < config.maxConcurrent
          && s.queue[0].scheduledAt <= now
          && var started := Start(s.(queue := s.queue[1..]), s.queue[0], now);
             s' == started.(drains := s.drains + 1, cancels := started.cancels))
  {
  }

  lemma DrainKeeps(config: Config, s: State, now: int)
    requires Inv(config, s)
    ensures Inv(config, Drain(config, s, now))
  {
    DrainCases(config, s, now);
    var s' := Drain(config, s, now);
    if s' != s {
      if s.queue[0].scheduledAt > now {
        ParkKeeps(config, s);
      } else {
        StartKeeps(config, s, now);
        var started := Start(s.(queue := s.queue[1..]), s.queue[0], now);
        OthersKeep(config, started, s.drains + 1, started.cancels);
      }
    }
  }

  lemma RemoveKeeps(config: Config, s: State, i: nat)
    requires Inv(config, s) && i < |s.queue|
    ensures Inv(config, s.(queue := RemoveAt(s.queue, i)))
  {
    var s' := s.(queue := RemoveAt(s.queue, i));
    ObjectsStay(s, s');
    forall k | 0 <= k < |s'.queue|
      ensures s'.queue[k] == s.queue[if k < i then k else k + 1]
    {
    }
    JournalSame(s, s');
  }

  lemma PushRetryObjects(config: Config, s: State, t: nat, route: Route, draw: Jitter, now: int)
    requires Objects(s) && OneBirth(s) && Slots(s) && t in s.attempts
    requires !Spent(s.attempts[t], route)
    requires s.attempts[t].entry.retryCount < s.attempts[t].entry.work.maxRetries
    ensures
      var s' := PushRetry(config, s, t, route, draw, now);
      Objects(s') && OneBirth(s')
  {
    var s' := PushRetry(config, s, t, route, draw, now);
    assert WellBorn(s, t);
    RouteAdvances(s, t, route);
    ObjectsGrow(s, s', s'.issued[|s.issued|]);
  }

  lemma PushRetryRest(config: Config, s: State, t: nat, route: Route, draw: Jitter, now: int)
    requires Pools(s) && Slots(s) && Journal(s) && t in s.attempts
    ensures
      var s' := PushRetry(config, s, t, route, draw, now);
      Pools(s') && Slots(s') && Journal(s')
  {
    var s' := PushRetry(config, s, t, route, draw, now);
    var retry := s'.issued[|s.issued|];
    PoolsGrow(s, s', 0, retry);
    JournalGrows(s, s', s'.log[|s.log|]);
  }

  lemma PushRetryKeeps(config: Config, s: State, t: nat, route: Route, draw: Jitter, now: int)
    requires Inv(config, s) && t in s.attempts
    requires !Spent(s.attempts[t], route)
    requires s.attempts[t].entry.retryCount < s.attempts[t].entry.work.maxRetries
    ensures Inv(config, PushRetry(config, s, t, route, draw, now))
  {
    PushRetryObjects(config, s, t, route, draw, now);
    PushRetryRest(config, s, t, route, draw, now);
  }

  lemma HandleErrorKeeps(config: Config, s: State, t: nat, route: Route, error: ExecutionError, draw: Jitter, now: int)
    requires Inv(config, s) && t in s.attempts
    requires !Spent(s.attempts[t], route)
    ensures Inv(config, HandleError(config, s, t, route, error, draw, now))
  {
    if ShouldRetry(s.attempts[t].entry, error) {
      PushRetryKeeps(config, s, t, route, draw, now);
    } else {
      RouteAdvances(s, t, route);
      AdvanceKeeps(config, s, AwaitFailedWrite(s, t, route));
    }
  }

  lemma RejectKeeps(config: Config, s: State, t: nat, error: ExecutionError, draw: Jitter, now: int)
    requires Inv(config, s) && Enabled(s, Rejected(t, error, draw, now))
    ensures Inv(config, Reject(config, s, t, error, draw, now))
  {
    hide Inv;
    var freed := ReleaseSlot(s, s.attempts[t].entry.work.executionId);
    ReleaseAdvances(s, s.attempts[t].entry.work.executionId);
    AdvanceKeeps(config, s, freed);
    assert freed.attempts[t].promise == s.attempts[t].promise;
    HandleErrorKeeps(config, freed, t, ByPromise, error, draw, now);
  }

  lemma CancelKeeps(config: Config, s: State, executionId: string)
    requires Inv(config, s)
    ensures Inv(config, Cancel(s, executionId))
  {
    var i := FindExecution(s.queue, executionId);
    var s' := Cancel(s, executionId);
    if i >= 0 {
      RemoveKeeps(config, s, i);
      OthersKeep(config, s.(queue := RemoveAt(s.queue, i)), s.drains, s'.cancels);
    } else if executionId in s.running && s.running[executionId] in s.attempts {
      var freed := ReleaseSlot(s, executionId);
      ReleaseAdvances(s, executionId);
      AdvanceKeeps(config, s, freed);
      OthersKeep(config, freed, s.drains, s'.cancels);
    }
  }

  lemma CancelWriteKeeps(config: Config, s: State, k: nat)
    requires Inv(config, s) && k < |s.cancels|
    ensures var done := SetCancel(s, k, CancelDone);
      Inv(config, done) && Inv(config, Append(done, Cancelled(s.cancels[k].job)))
  {
    var done := SetCancel(s, k, CancelDone);
    OthersKeep(config, s, s.drains, done.cancels);
    RecordKeeps(config, done, Cancelled(s.cancels[k].job));
  }

  lemma FailedWriteKeeps(config: Config, s: State, t: nat, route: Route)
    requires Inv(config, s) && t in s.attempts
    ensures var closed := CloseRoute(s, t, route);
      Inv(config, closed) && Inv(config, Append(closed, Failed(s.attempts[t].entry.job)))
  {
    var closed := CloseRoute(s, t, route);
    RouteAdvances(s, t, route);
    AdvanceKeeps(config, s, closed);
    RecordKeeps(config, closed, Failed(s.attempts[t].entry.job));
  }

  lemma SuccessKeeps(config: Config, s: State, t: nat)
    requires Inv(config, s) && t in s.attempts
    ensures Inv(config, Append(SetPromise(s, t, Settled), Completed(s.attempts[t].entry.job)))
  {
    var settled := SetPromise(s, t, Settled);
    PromiseAdvances(s, t, Settled);
    AdvanceKeeps(config, s, settled);
    RecordKeeps(config, settled, Completed(s.attempts[t].entry.job));
  }

  lemma PhaseKeeps(config: Config, s: State, e: Event)
    requires Inv(config, s) && Enabled(s, e)
    requires e.RunningWritten? || e.CallResolved? || e.TimerFired? || e.RunCancelled?
    ensures Inv(config, Step(config, s, e))
  {
    match e
    case RunningWritten(t) =>
      PromiseAdvances(s, t, Calling);
      AdvanceKeeps(config, s, SetPromise(s, t, Calling));
    case CallResolved(t) =>
      ResolveAdvances(s, t);
      AdvanceKeeps(config, s, Resolve(s, t));
    case TimerFired(t) =>
      ExpireAdvances(s, t);
      AdvanceKeeps(config, s, Expire(s, t));
    case RunCancelled(k) =>
      OthersKeep(config, s, s.drains, SetCancel(s, k, WritingCancelled).cancels);
  }

  /** Every event keeps the invariant. */
  lemma StepKeeps(config: Config, s: State, e: Event)
    requires Inv(config, s) && Enabled(s, e)
    ensures Inv(config, Step(config, s, e))
  {
    hide Inv;
    match e
    case Enqueue(work, at, now) =>
      InsertKeeps(config, s, work, at);
      DrainKeeps(config, Insert(s, work, at), now);
    case DrainTick(now) =>
      OthersKeep(config, s, s.drains - 1, s.cancels);
      DrainKeeps(config, s.(drains := s.drains - 1), now);
    case Wake(entry, now) =>
      UnparkKeeps(config, s, entry);
      DrainKeeps(config, Unpark(s, entry), now);
    case Rejected(t, error, draw, now) => RejectKeeps(config, s, t, error, draw, now);
    case TimeoutHandled(t, draw, now) => HandleErrorKeeps(config, s, t, ByTimer, TIMEOUT_ERROR, draw, now);
    case CancelRequested(executionId) => CancelKeeps(config, s, executionId);
    case SuccessWritten(t) => SuccessKeeps(config, s, t);
    case FailedWriteDone(t, route, _) => FailedWriteKeeps(config, s, t, route);
    case CancelWriteDone(k, _) => CancelWriteKeeps(config, s, k);
    case _ => PhaseKeeps(config, s, e);
  }

  /** The invariant holds after every run. */
  lemma {:induction false} RunKeeps(config: Config, run: seq<Event>)
    ensures Inv(config, After(config, run))
  {
    if run != [] {
      var before := run[..|run| - 1];
      RunKeeps(config, before);
      if Enabled(After(config, before), run[|run| - 1]) {
        StepKeeps(config, After(config, before), run[|run| - 1]);
      }
    }
  }

  // ---------------------------------------------------------------------------------
  // Why each retry was made

  /** Record c says that e was made as a retry, due when a delay within the bounds of its backoff is over. */
  predicate MadeBy(config: Config, log: seq<Record>, c: nat, e: Entry) {
    && c < |log|
    && log[c].Retrying?
    && log[c].entry == e
    && e.retryCount >= 1
    && e.scheduledAt == (log[c].at as real + log[c].delay).Floor
    && MinReal(Exponential(config.retryDelayBase, e.retryCount), config.retryDelayMax) <= log[c].delay
    && log[c].delay <= MinReal(1.1 * Exponential(config.retryDelayBase, e.retryCount), config.retryDelayMax)
  }

  ghost predicate Explained(config: Config, log: seq<Record>, e: Entry) {
    e.retryCount > 0 ==> exists c :: 0 <= c < |log| && MadeBy(config, log, c, e)
  }

  /** The log explains every retry, and before it starts. */
  ghost predicate Reasons(config: Config, s: State) {
    && (forall t {:trigger Explained(config, s.log, s.issued[t])} | 0 <= t < |s.issued| ::
          Explained(config, s.log, s.issued[t]))
    && (forall k | 0 <= k < |s.log| && s.log[k].Started? :: Explained(config, s.log[..k], s.log[k].entry))
    && (forall k | 0 <= k < |s.log| && s.log[k].Retrying? :: MadeBy(config, s.log, k, s.log[k].entry))
  }

  lemma ExplainedGrows(config: Config, log: seq<Record>, longer: seq<Record>, e: Entry)
    requires log <= longer && Explained(config, log, e)
    ensures Explained(config, longer, e)
  {
    if e.retryCount > 0 {
      var c :| 0 <= c < |log| && MadeBy(config, log, c, e);
      assert MadeBy(config, longer, c, e);
    }
  }

  /** A step adds at most one record, and if it is a start, the entry was known before. */
  lemma ReasonsGrow(config: Config, s: State, s': State)
    requires Reasons(config, s) && s.issued <= s'.issued
    requires s.log <= s'.log && |s'.log| <= |s.log| + 1
    requires forall t | |s.issued| <= t < |s'.issued| :: Explained(config, s'.log, s'.issued[t])
    requires |s'.log| > |s.log| && s'.log[|s.log|].Started? ==> Known(s, s'.log[|s.log|].entry)
    requires |s'.log| > |s.log| && s'.log[|s.log|].Retrying? ==> MadeBy(config, s'.log, |s.log|, s'.log[|s.log|].entry)
    ensures Reasons(config, s')
  {
    forall t | 0 <= t < |s'.issued|
      ensures Explained(config, s'.log, s'.issued[t])
    {
      if t < |s.issued| {
        ExplainedGrows(config, s.log, s'.log, s.issued[t]);
      }
    }
    forall k | 0 <= k < |s'.log| && s'.log[k].Started?
      ensures Explained(config, s'.log[..k], s'.log[k].entry)
    {
      if k < |s.log| {
        assert s'.log[k] == s.log[k] && s'.log[..k] == s.log[..k];
      } else {
        assert s'.log[..k] == s.log;
        assert s.issued[s'.log[k].entry.ticket] == s'.log[k].entry;
      }
    }
    forall k | 0 <= k < |s'.log| && s'.log[k].Retrying?
      ensures MadeBy(config, s'.log, k, s'.log[k].entry)
    {
      assert k < |s.log| ==> s'.log[k] == s.log[k] && MadeBy(config, s.log, k, s.log[k].entry);
    }
  }

  lemma DrainReasons(config: Config, s: State, now: int)
    requires Pools(s) && Reasons(config, s)
    ensures Reasons(config, Drain(config, s, now))
  {
    DrainCases(config, s, now);
    if s.queue != [] {
      assert Known(s, s.queue[0]);
    }
    ReasonsGrow(config, s, Drain(config, s, now));
  }

  /** The retry's due time accounts for its backoff. */
  lemma ErrorReasons(config: Config, s: State, t: nat, route: Route, error: ExecutionError, draw: Jitter, now: int)
    requires config.Valid() && Reasons(config, s) && t in s.attempts
    ensures Reasons(config, HandleError(config, s, t, route, error, draw, now))
  {
    var s' := HandleError(config, s, t, route, error, draw, now);
    if ShouldRetry(s.attempts[t].entry, error) {
      DelayRange(config.retryDelayBase, config.retryDelayMax, s.attempts[t].entry.retryCount + 1, draw);
      assert MadeBy(config, s'.log, |s.log|, s'.issued[|s.issued|]);
    }
    ReasonsGrow(config, s, s');
  }

  lemma StepReasons(config: Config, s: State, e: Event)
    requires config.Valid() && Inv(config, s) && Reasons(config, s) && Enabled(s, e)
    ensures Reasons(config, Step(config, s, e))
  {
    hide Inv, Reasons;
    match e
    case Enqueue(work, at, now) =>
      InsertKeeps(config, s, work, at);
      ReasonsGrow(config, s, Insert(s, work, at));
      InvPools(config, Insert(s, work, at));
      DrainReasons(config, Insert(s, work, at), now);
    case DrainTick(now) =>
      InvPools(config, s);
      ReasonsGrow(config, s, s.(drains := s.drains - 1));
      DrainReasons(config, s.(drains := s.drains - 1), now);
    case Wake(entry, now) =>
      UnparkKeeps(config, s, entry);
      ReasonsGrow(config, s, Unpark(s, entry));
      InvPools(config, Unpark(s, entry));
      DrainReasons(config, Unpark(s, entry), now);
    case Rejected(t, error, draw, now) =>
      var freed := ReleaseSlot(s, s.attempts[t].entry.work.executionId);
      ReasonsGrow(config, s, freed);
      ErrorReasons(config, freed, t, ByPromise, error, draw, now);
    case TimeoutHandled(t, draw, now) => ErrorReasons(config, s, t, ByTimer, TIMEOUT_ERROR, draw, now);
    case _ => ReasonsGrow(config, s, Step(config, s, e));
  }

  lemma InvPools(config: Config, s: State)
    requires Inv(config, s)
    ensures Pools(s)
  {
  }

  lemma {:induction false} RunReasons(config: Config, run: seq<Event>)
    requires config.Valid()
    ensures Reasons(config, After(config, run))
  {
    if run != [] {
      var before := run[..|run| - 1];
      RunReasons(config, before);
      RunKeeps(config, before);
      if Enabled(After(config, before), run[|run| - 1]) {
        StepReasons(config, After(config, before), run[|run| - 1]);
      }
    }
  }
}
