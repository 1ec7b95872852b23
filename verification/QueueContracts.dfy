/**
 What each stretch of the queue does to the service's state, said of the state before and the
 state after without the functions that compute it. The relation pins the new state: it holds
 of exactly the state that the state machine comes to.
 */
module QueueContracts {
  import opened Backoff
  import opened Common
  import opened QueueModel

  /** The errors that rule out a retry: the request itself was wrong. */
  const CLIENT_ERRORS: set<ExecutionError> :=
    {AppError(VALIDATION_ERROR), AppError(INVALID_INPUT), AppError(UNAUTHORIZED), AppError(FORBIDDEN)}

  /** An entry of this priority belongs at index i: behind all that are not lower, in front of the first that is. */
  ghost predicate Belongs(queue: seq<Entry>, i: nat, priority: int) {
    && i <= |queue|
    && (forall k | 0 <= k < i :: queue[k].work.priority >= priority)
    && (i < |queue| ==> queue[i].work.priority < priority)
  }

  /** A new first try is put into the queue, retries and all, where its priority belongs. */
  ghost predicate Inserted(s: State, s': State, work: Work, at: int) {
    var e := Entry(|s.issued|, |s.works|, First, work, 0, at);
    exists i: nat ::
      && Belongs(s.queue, i, work.priority)
      && s' == s.(queue := s.queue[..i] + [e] + s.queue[i..], works := s.works + [work], issued := s.issued + [e],
                  log := s.log + [Enqueued(e)])
  }

  /** With a free slot the head is taken off the queue: parked if it is not due, and started if it is. */
  ghost predicate Drained(config: Config, s: State, s': State, now: int) {
    if |s.running| >= config.maxConcurrent || s.queue == [] then s' == s
    else
      var e := s.queue[0];
      if e.scheduledAt > now then s' == s.(queue := s.queue[1..], parked := s.parked + {e})
      else
        s' == s.(queue := s.queue[1..],
                 running := s.running[e.work.executionId := e.ticket],
                 attempts := s.attempts[e.ticket := Attempt(e, WritingRunning, Armed)],
                 drains := s.drains + 1,
                 log := s.log + [Started(e, now)])
  }

  /** The timeout behind the handle no longer fires, if it was still to fire. */
  ghost predicate Disarms(attempts: map<nat, Attempt>, attempts': map<nat, Attempt>, handle: nat) {
    && attempts'.Keys == attempts.Keys
    && forall t | t in attempts ::
         attempts'[t] ==
         if t == handle && attempts[t].timer == Armed
         then Attempt(attempts[t].entry, attempts[t].promise, Disarmed) else attempts[t]
  }

  /** Whatever slot this execution id has is free, and its timeout does not fire. */
  ghost predicate Freed(s: State, s': State, id: string) {
    && s' == s.(running := s'.running, attempts := s'.attempts)
    && s'.running == s.running - {id}
    && if id in s.running then Disarms(s.attempts, s'.attempts, s.running[id]) else s'.attempts == s.attempts
  }

  /** The entry that retries e comes n-th, due when the jittered and capped delay is over. */
  ghost predicate RetriesEntry(config: Config, e: Entry, retry: Entry, n: nat, route: Route,
                               delay: real, draw: Jitter, now: int) {
    var jittered := config.retryDelayBase * Pow2(e.retryCount) as real * (1.0 + 0.1 * draw);
    && delay == (if jittered <= config.retryDelayMax then jittered else config.retryDelayMax)
    && retry.ticket == n && retry.job == e.job && retry.work == e.work
    && retry.origin == RetryOf(e.ticket, route)
    && retry.retryCount == e.retryCount + 1
    && retry.scheduledAt as real <= now as real + delay < (retry.scheduledAt + 1) as real
  }

  /** An attempt has failed by one of its routes: it is retried at the head of the queue, or its failure is written. */
  ghost predicate ErrorHandled(config: Config, s: State, s': State, t: nat, route: Route, error: ExecutionError,
                               draw: Jitter, now: int)
    requires t in s.attempts
  {
    var a := s.attempts[t];
    if a.entry.retryCount < a.entry.work.maxRetries && error !in CLIENT_ERRORS then
      exists retry: Entry, delay: real ::
        && RetriesEntry(config, a.entry, retry, |s.issued|, route, delay, draw, now)
        && s' == s.(queue := [retry] + s.queue, issued := s.issued + [retry], log := s.log + [Retrying(retry, delay, now)],
                    attempts := s.attempts[t := if route.ByPromise? then Attempt(a.entry, Settled, a.timer)
                                                else Attempt(a.entry, a.promise, TimerDone)])
    else
      s' == s.(attempts := s.attempts[t := if route.ByPromise? then Attempt(a.entry, WritingFailed, a.timer)
                                           else Attempt(a.entry, a.promise, TimerWritingFailed)])
  }

  /** The first queued entry of the execution leaves the queue; without one, its slot is freed. */
  ghost predicate CancelStarted(s: State, s': State, id: string) {
    if exists e | e in s.queue :: e.work.executionId == id then
      exists i: nat ::
        && i < |s.queue| && s.queue[i].work.executionId == id
        && (forall k | 0 <= k < i :: s.queue[k].work.executionId != id)
        && s' == s.(queue := s.queue[..i] + s.queue[i + 1..],
                    cancels := s.cancels + [CancelCall(id, s.queue[i].job, WritingCancelled)])
    else if id in s.running && s.running[id] in s.attempts then
      && Freed(s.(cancels := s'.cancels), s', id)
      && s'.cancels == s.cancels + [CancelCall(id, s.attempts[s.running[id]].entry.job, CancellingRun)]
    else s' == s
  }

  /** What the stretch of an event does. */
  ghost predicate Does(config: Config, s: State, e: Event, s': State)
    requires Enabled(s, e)
  {
    match e
    case Enqueue(work, at, now) => exists ready :: Inserted(s, ready, work, at) && Drained(config, ready, s', now)
    case DrainTick(now) => Drained(config, s.(drains := s.drains - 1), s', now)
    case Wake(entry, now) => Drained(config, s.(parked := s.parked - {entry}, queue := [entry] + s.queue), s', now)
    case RunningWritten(t) =>
      var a := s.attempts[t];
      s' == s.(attempts := s.attempts[t := Attempt(a.entry, Calling, a.timer)])
    case CallResolved(t) =>
      var a := s.attempts[t];
      s' == s.(running := s.running - {a.entry.work.executionId},
               attempts := s.attempts[t := Attempt(a.entry, WritingSuccess, if a.timer == Armed then Disarmed else a.timer)])
    case Rejected(t, error, draw, now) =>
      exists freed :: Freed(s, freed, s.attempts[t].entry.work.executionId) && t in freed.attempts
        && ErrorHandled(config, freed, s', t, ByPromise, error, draw, now)
    case SuccessWritten(t) =>
      var a := s.attempts[t];
      s' == s.(attempts := s.attempts[t := Attempt(a.entry, Settled, a.timer)], log := s.log + [Completed(a.entry.job)])
    case TimerFired(t) =>
      var a := s.attempts[t];
      s' == s.(running := s.running - {a.entry.work.executionId},
               attempts := s.attempts[t := Attempt(a.entry, a.promise, CancellingCall)])
    case TimeoutHandled(t, draw, now) => ErrorHandled(config, s, s', t, ByTimer, AppError(EXECUTION_FAILED), draw, now)
    case FailedWriteDone(t, route, ok) =>
      var a := s.attempts[t];
      s' == s.(attempts := s.attempts[t := if route.ByPromise? then Attempt(a.entry, Settled, a.timer)
                                           else Attempt(a.entry, a.promise, TimerDone)],
               log := s.log + if ok then [Failed(a.entry.job)] else [])
    case CancelRequested(id) => CancelStarted(s, s', id)
    case RunCancelled(k) =>
      s' == s.(cancels := s.cancels[k := CancelCall(s.cancels[k].executionId, s.cancels[k].job, WritingCancelled)])
    case CancelWriteDone(k, ok) =>
      s' == s.(cancels := s.cancels[k := CancelCall(s.cancels[k].executionId, s.cancels[k].job, CancelDone)],
               log := s.log + if ok then [Cancelled(s.cancels[k].job)] else [])
  }

  // ---------------------------------------------------------------------------------
  // Options

  /** A number that a caller may leave out; zero counts as left out. */
  predicate Chosen(given: Option<int>, fallback: int, value: int) {
    if given.Some? && given.value != 0 then value == given.value else value == fallback
  }

  /** The request that an enqueue accepts, with the service's defaults for what the caller leaves out. */
  predicate Accepts(config: Config, work: Work, priority: Option<int>, timeout: Option<int>, maxRetries: Option<int>) {
    && Chosen(priority, 0, work.priority)
    && Chosen(timeout, config.defaultTimeout, work.timeout)
    && Chosen(maxRetries, config.defaultMaxRetries, work.maxRetries)
  }

  /** Each option counts if it is given and not zero, and has its own default otherwise. */
  lemma ConfiguresEach(options: Options)
    ensures
      var config := Configure(options);
      && config.maxConcurrent ==
           (if options.maxConcurrent.Some? && options.maxConcurrent.value > 0 then options.maxConcurrent.value else 5)
      && Chosen(options.defaultTimeout, 300000, config.defaultTimeout)
      && Chosen(options.defaultMaxRetries, 3, config.defaultMaxRetries)
      && config.retryDelayBase ==
           (if options.retryDelayBase.Some? && options.retryDelayBase.value != 0.0 then options.retryDelayBase.value
            else 1000.0)
      && config.retryDelayMax ==
           (if options.retryDelayMax.Some? && options.retryDelayMax.value != 0.0 then options.retryDelayMax.value
            else 60000.0)
  {
  }

  // ---------------------------------------------------------------------------------
  // The parts

  lemma OnePlaceForIt(queue: seq<Entry>, i: nat, j: nat, priority: int)
    requires Belongs(queue, i, priority) && Belongs(queue, j, priority)
    ensures i == j
  {
  }

  /** Whatever waits in the queue, an enqueue puts its entry where its priority belongs, and nowhere else. */
  lemma InsertExactly(s: State, s': State, work: Work, at: int)
    ensures Inserted(s, s', work, at) <==> s' == Insert(s, work, at)
  {
    var i := InsertIndex(s.queue, work.priority);
    assert Belongs(s.queue, i, work.priority);
    if Inserted(s, s', work, at) {
      var j: nat :| Belongs(s.queue, j, work.priority)
        && var e := Entry(|s.issued|, |s.works|, First, work, 0, at);
           s' == s.(queue := s.queue[..j] + [e] + s.queue[j..], works := s.works + [work], issued := s.issued + [e],
                    log := s.log + [Enqueued(e)]);
      OnePlaceForIt(s.queue, i, j, work.priority);
    }
  }

  lemma DrainExactly(config: Config, s: State, s': State, now: int)
    ensures Drained(config, s, s', now) <==> s' == Drain(config, s, now)
  {
  }

  lemma DisarmExactly(attempts: map<nat, Attempt>, attempts': map<nat, Attempt>, handle: nat)
    ensures Disarms(attempts, attempts', handle) <==> attempts' == ClearTimeout(attempts, handle)
  {
  }

  lemma FreeExactly(s: State, s': State, id: string)
    ensures Freed(s, s', id) <==> s' == ReleaseSlot(s, id)
  {
    if id in s.running {
      DisarmExactly(s.attempts, s'.attempts, s.running[id]);
    } else {
      assert s.running - {id} == s.running;
    }
  }

  lemma OneFloor(x: real, i: int)
    ensures i as real <= x < (i + 1) as real <==> i == x.Floor
  {
  }

  lemma EntryExactly(config: Config, e: Entry, retry: Entry, n: nat, route: Route, delay: real, draw: Jitter, now: int)
    ensures
      RetriesEntry(config, e, retry, n, route, delay, draw, now)
      <==> (&& delay == RetryDelay(config.retryDelayBase, config.retryDelayMax, e.retryCount + 1, draw)
            && retry == RetryEntry(n, e, route, delay, now))
  {
    DelayIs(config.retryDelayBase, config.retryDelayMax, e.retryCount + 1, draw);
    OneFloor(now as real + delay, retry.scheduledAt);
  }

  /** Exactly the four client errors rule out a retry. */
  lemma RetryableExactly(error: ExecutionError)
    ensures IsRetryable(error) <==> error !in CLIENT_ERRORS
  {
  }

  lemma ErrorExactly(config: Config, s: State, s': State, t: nat, route: Route, error: ExecutionError,
                     draw: Jitter, now: int)
    requires t in s.attempts
    ensures
      ErrorHandled(config, s, s', t, route, error, draw, now)
      <==> s' == HandleError(config, s, t, route, error, draw, now)
  {
    var a := s.attempts[t];
    RetryableExactly(error);
    if ShouldRetry(a.entry, error) {
      var delay := RetryDelay(config.retryDelayBase, config.retryDelayMax, a.entry.retryCount + 1, draw);
      var retry := RetryEntry(|s.issued|, a.entry, route, delay, now);
      forall r: Entry, d: real
        ensures RetriesEntry(config, a.entry, r, |s.issued|, route, d, draw, now) <==> d == delay && r == retry
      {
        EntryExactly(config, a.entry, r, |s.issued|, route, d, draw, now);
      }
      hide RetriesEntry, RetryDelay, RetryEntry;
    }
  }

  /**
   A call that fails with one of the four client errors, or without retries left, issues and
   queues nothing, and its failure is to be written. Any other failure issues exactly one
   entry, which stands at the head of the queue.
   */
  lemma ErrorsAreClassified(config: Config, s: State, t: nat, error: ExecutionError, draw: Jitter, now: int)
    requires Enabled(s, Rejected(t, error, draw, now))
    ensures
      var e, s' := s.attempts[t].entry, Step(config, s, Rejected(t, error, draw, now));
      if error in {AppError(VALIDATION_ERROR), AppError(INVALID_INPUT), AppError(UNAUTHORIZED), AppError(FORBIDDEN)}
         || e.retryCount >= e.work.maxRetries
      then s'.queue == s.queue && s'.issued == s.issued && t in s'.attempts && s'.attempts[t].promise == WritingFailed
      else |s'.issued| == |s.issued| + 1 && s'.queue == [s'.issued[|s.issued|]] + s.queue
  {
    RetryableExactly(error);
  }

  lemma FirstQueued(queue: seq<Entry>, id: string, i: nat)
    requires i < |queue|
    ensures
      FindExecution(queue, id) == i
      <==> queue[i].work.executionId == id && forall k | 0 <= k < i :: queue[k].work.executionId != id
  {
  }

  lemma DequeueExactly(s: State, s': State, id: string)
    requires FindExecution(s.queue, id) >= 0
    ensures CancelStarted(s, s', id) <==> s' == Cancel(s, id)
  {
    var i := FindExecution(s.queue, id);
    assert s.queue[i] in s.queue && s.queue[i].work.executionId == id;
    forall k: nat | k < |s.queue|
      ensures
        k == i <==> s.queue[k].work.executionId == id && forall l | 0 <= l < k :: s.queue[l].work.executionId != id
    {
      FirstQueued(s.queue, id, k);
    }
    hide FindExecution, ClearTimeout, Freed;
  }

  lemma CancelExactly(s: State, s': State, id: string)
    ensures CancelStarted(s, s', id) <==> s' == Cancel(s, id)
  {
    if FindExecution(s.queue, id) >= 0 {
      DequeueExactly(s, s', id);
    } else if id in s.running && s.running[id] in s.attempts {
      FreeExactly(s.(cancels := s'.cancels), s', id);
    }
  }

  /** The relation holds of exactly the state that the state machine comes to. */
  lemma StepDoes(config: Config, s: State, e: Event, s': State)
    requires Enabled(s, e)
    ensures Does(config, s, e, s') <==> s' == Step(config, s, e)
  {
    match e
    case Enqueue(work, at, now) =>
      var ready := Insert(s, work, at);
      forall r
        ensures Inserted(s, r, work, at) <==> r == ready
      {
        InsertExactly(s, r, work, at);
      }
      DrainExactly(config, ready, s', now);
      hide Inserted, Drained, Insert, Drain;
    case DrainTick(now) => DrainExactly(config, s.(drains := s.drains - 1), s', now);
    case Wake(entry, now) => DrainExactly(config, Unpark(s, entry), s', now);
    case Rejected(t, error, draw, now) =>
      var id := s.attempts[t].entry.work.executionId;
      forall r
        ensures Freed(s, r, id) <==> r == ReleaseSlot(s, id)
      {
        FreeExactly(s, r, id);
      }
      ErrorExactly(config, ReleaseSlot(s, id), s', t, ByPromise, error, draw, now);
      hide Freed, ErrorHandled, HandleError;
    case TimeoutHandled(t, draw, now) => ErrorExactly(config, s, s', t, ByTimer, TIMEOUT_ERROR, draw, now);
    case CancelRequested(id) => CancelExactly(s, s', id);
    case _ =>
      assert s.log + [] == s.log;
  }
}
