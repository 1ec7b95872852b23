/** Every outcome that the queue reports was earned: by a resolved call, a request to cancel or a spent budget. */
module QueueOutcomes {
  import opened Backoff
  import opened QueueModel
  import opened QueueInvariant
  import opened QueueBounds
  import opened QueueContracts
  import opened QueuePlaces
  import opened QueueRetries

  /** The event loop delivered event i of the run, and did not just pass over it. */
  predicate Delivered(config: Config, run: seq<Event>, i: nat) {
    i < |run| && Enabled(After(config, run[..i]), run[i])
  }

  /** This event was delivered. */
  ghost predicate Happened(config: Config, run: seq<Event>, e: Event) {
    exists i: nat :: Delivered(config, run, i) && run[i] == e
  }

  /** Someone asked to cancel job j after it had been accepted. */
  ghost predicate Asked(config: Config, run: seq<Event>, j: nat) {
    exists i: nat :: Delivered(config, run, i) && AsksFor(After(config, run[..i]), run[i], j)
  }

  predicate AsksFor(s: State, e: Event, j: nat) {
    e.CancelRequested? && j < |s.works| && s.works[j].executionId == e.executionId
  }

  /** The call of attempt t failed with an error that is not retried. */
  ghost predicate Refused(config: Config, run: seq<Event>, t: nat) {
    exists i: nat :: Delivered(config, run, i) && run[i].Rejected? && run[i].t == t && run[i].error in CLIENT_ERRORS
  }

  /** Attempt t has no retry left, or must not be retried. */
  ghost predicate Exhausted(config: Config, run: seq<Event>, a: Attempt) {
    a.entry.retryCount >= a.entry.work.maxRetries || Refused(config, run, a.entry.ticket)
  }

  ghost predicate AttemptEarned(config: Config, run: seq<Event>, a: Attempt) {
    && (a.promise == WritingSuccess ==> Happened(config, run, CallResolved(a.entry.ticket)))
    && (a.promise == WritingFailed || a.timer == TimerWritingFailed ==> Exhausted(config, run, a))
  }

  ghost predicate CallEarned(config: Config, run: seq<Event>, s: State, c: CancelCall) {
    c.job < |s.works| && Asked(config, run, c.job)
  }

  ghost predicate IsAttemptOf(s: State, t: nat, j: nat) {
    t in s.attempts && s.attempts[t].entry.job == j && s.attempts[t].entry.ticket == t
  }

  ghost predicate RecordEarned(config: Config, run: seq<Event>, s: State, r: Record) {
    match r
    case Completed(j) => exists t :: IsAttemptOf(s, t, j) && Happened(config, run, CallResolved(t))
    case Failed(j) => exists t :: IsAttemptOf(s, t, j) && Exhausted(config, run, s.attempts[t])
    case Cancelled(j) => j < |s.works| && Asked(config, run, j)
    case _ => true
  }

  ghost predicate Logged(s: State, t: nat)
    requires t in s.attempts
  {
    exists k | 0 <= k < |s.log| :: s.log[k].Started? && s.log[k].entry == s.attempts[t].entry
  }

  ghost predicate Earned(config: Config, run: seq<Event>, s: State) {
    && (forall t {:trigger s.attempts[t]} | t in s.attempts :: AttemptEarned(config, run, s.attempts[t]) && Logged(s, t))
    && (forall k | 0 <= k < |s.cancels| :: CallEarned(config, run, s, s.cancels[k]))
    && (forall k | 0 <= k < |s.log| :: RecordEarned(config, run, s, s.log[k]))
  }

  /** The run has come to s, everything so far is earned, and e can be delivered next. */
  ghost predicate Reached(config: Config, run: seq<Event>, s: State, e: Event) {
    s == After(config, run) && Enabled(s, e) && Earned(config, run, s)
  }

  // ---------------------------------------------------------------------------------
  // Later runs earn no less

  lemma DeliveredLater(config: Config, run: seq<Event>, e: Event, i: nat)
    requires Delivered(config, run, i)
    ensures Delivered(config, run + [e], i) && (run + [e])[i] == run[i] && (run + [e])[..i] == run[..i]
  {
    assert (run + [e])[..i] == run[..i];
  }

  lemma JustDelivered(config: Config, run: seq<Event>, e: Event)
    requires Enabled(After(config, run), e)
    ensures Delivered(config, run + [e], |run|) && (run + [e])[|run|] == e && (run + [e])[..|run|] == run
  {
  }

  lemma HappenedLater(config: Config, run: seq<Event>, e: Event, f: Event)
    ensures Happened(config, run, f) ==> Happened(config, run + [e], f)
  {
    if i: nat :| Delivered(config, run, i) && run[i] == f {
      DeliveredLater(config, run, e, i);
    }
  }

  lemma AskedLater(config: Config, run: seq<Event>, e: Event, j: nat)
    ensures Asked(config, run, j) ==> Asked(config, run + [e], j)
  {
    if i: nat :| Delivered(config, run, i) && AsksFor(After(config, run[..i]), run[i], j) {
      DeliveredLater(config, run, e, i);
    }
  }

  lemma RefusedLater(config: Config, run: seq<Event>, e: Event, t: nat)
    requires Refused(config, run, t)
    ensures Refused(config, run + [e], t)
  {
    var i: nat :| Delivered(config, run, i) && run[i].Rejected? && run[i].t == t && run[i].error in CLIENT_ERRORS;
    DeliveredLater(config, run, e, i);
  }

  lemma ExhaustedLater(config: Config, run: seq<Event>, e: Event, a: Attempt)
    requires Exhausted(config, run, a)
    ensures Exhausted(config, run + [e], a)
  {
    if a.entry.retryCount < a.entry.work.maxRetries {
      RefusedLater(config, run, e, a.entry.ticket);
    }
  }

  /** Attempts keep their entries, works and log only grow. */
  ghost predicate Grows(s: State, s': State) {
    && (forall t | t in s.attempts :: t in s'.attempts && s'.attempts[t].entry == s.attempts[t].entry)
    && s.works <= s'.works
    && s.log <= s'.log
  }

  lemma RecordLater(config: Config, run: seq<Event>, e: Event, s: State, s': State, r: Record)
    requires RecordEarned(config, run, s, r) && Grows(s, s')
    ensures RecordEarned(config, run + [e], s', r)
  {
    match r
    case Completed(j) =>
      var t :| IsAttemptOf(s, t, j) && Happened(config, run, CallResolved(t));
      HappenedLater(config, run, e, CallResolved(t));
      assert IsAttemptOf(s', t, j);
    case Failed(j) =>
      var t :| IsAttemptOf(s, t, j) && Exhausted(config, run, s.attempts[t]);
      ExhaustedLater(config, run, e, s.attempts[t]);
      assert IsAttemptOf(s', t, j);
      assert Exhausted(config, run + [e], s'.attempts[t]);
    case Cancelled(j) => AskedLater(config, run, e, j);
    case _ =>
  }

  lemma LoggedLater(s: State, s': State, t: nat)
    requires t in s.attempts && Logged(s, t) && Grows(s, s')
    ensures Logged(s', t)
  {
    var k :| 0 <= k < |s.log| && s.log[k].Started? && s.log[k].entry == s.attempts[t].entry;
    assert s'.log[k] == s.log[k];
  }

  /** What one event may do to an attempt that was there before. */
  predicate Moves(e: Event, a: Attempt, a': Attempt) {
    && a'.entry == a.entry
    && (a'.promise == WritingSuccess && a.promise != WritingSuccess ==> e == CallResolved(a.entry.ticket))
    && (a'.promise == WritingFailed && a.promise != WritingFailed ==>
          e.Rejected? && e.t == a.entry.ticket && !ShouldRetry(a.entry, e.error))
    && (a'.timer == TimerWritingFailed && a.timer != TimerWritingFailed ==> !ShouldRetry(a.entry, TIMEOUT_ERROR))
  }

  lemma MovesEarn(config: Config, run: seq<Event>, e: Event, a: Attempt, a': Attempt)
    requires AttemptEarned(config, run, a) && Moves(e, a, a')
    requires a' == a || Enabled(After(config, run), e)
    ensures AttemptEarned(config, run + [e], a')
  {
    if Exhausted(config, run, a) {
      ExhaustedLater(config, run, e, a);
    }
    HappenedLater(config, run, e, CallResolved(a.entry.ticket));
    if Enabled(After(config, run), e) {
      JustDelivered(config, run, e);
    }
  }

  /** Every attempt either moves as the event says or is new and has just been logged. */
  ghost predicate AttemptsMove(e: Event, s: State, s': State) {
    forall t {:trigger s'.attempts[t]} | t in s'.attempts ::
      if t in s.attempts then Moves(e, s.attempts[t], s'.attempts[t])
      else s'.attempts[t].promise == WritingRunning && s'.attempts[t].timer == Armed && Logged(s', t)
  }

  lemma StartMoves(e: Event, s: State, head: Entry, now: int)
    requires head.ticket !in s.attempts
    ensures
      var s' := Start(s, head, now);
      Grows(s, s') && AttemptsMove(e, s, s')
  {
    var s' := Start(s, head, now);
    assert s'.log[|s.log|] == Started(head, now);
    assert Logged(s', head.ticket);
  }

  /** A drain leaves everything as it is but the queue, or also starts one entry. */
  lemma DrainMoves(config: Config, e: Event, s: State, now: int)
    requires Inv(config, s)
    ensures Grows(s, Drain(config, s, now)) && AttemptsMove(e, s, Drain(config, s, now))
    ensures
      var s' := Drain(config, s, now);
      s'.cancels == s.cancels && s'.works == s.works
      && (s'.log == s.log || (|s'.log| == |s.log| + 1 && s'.log[|s.log|].Started?))
  {
    DrainCases(config, s, now);
    var s' := Drain(config, s, now);
    if s' != s && s.queue[0].scheduledAt <= now {
      HeadFresh(config, s);
      hide Inv, Drain, Start;
      StartMoves(e, s.(queue := s.queue[1..]), s.queue[0], now);
    }
  }

  lemma OneMoves(e: Event, s: State, t: nat, a: Attempt)
    requires t in s.attempts && Moves(e, s.attempts[t], a)
    ensures AttemptsMove(e, s, s.(attempts := s.attempts[t := a]))
  {
  }

  lemma ClearMoves(e: Event, s: State, handle: nat)
    ensures AttemptsMove(e, s, s.(attempts := ClearTimeout(s.attempts, handle)))
  {
  }

  /** First a slot is freed, then one attempt moves. */
  lemma ClearThenMove(e: Event, s: State, handle: nat, t: nat, a: Attempt, s': State)
    requires t in s.attempts && Moves(e, s.attempts[t], a)
    requires s'.attempts == ClearTimeout(s.attempts, handle)[t := a]
    ensures AttemptsMove(e, s, s')
  {
    var cleared := s.(attempts := ClearTimeout(s.attempts, handle));
    ClearMoves(e, s, handle);
    forall u | u in s'.attempts
      ensures Moves(e, s.attempts[u], s'.attempts[u])
    {
      if u != t {
        assert s'.attempts[u] == cleared.attempts[u];
      }
    }
  }

  lemma ErrorMoves(config: Config, e: Event, s: State, t: nat, route: Route, error: ExecutionError, draw: Jitter, now: int)
    requires t in s.attempts
    requires route.ByPromise? ==> e.Rejected? && e.t == s.attempts[t].entry.ticket && e.error == error
    requires route.ByTimer? ==> error == TIMEOUT_ERROR
    ensures
      var s' := HandleError(config, s, t, route, error, draw, now);
      && t in s'.attempts && Moves(e, s.attempts[t], s'.attempts[t])
      && s'.attempts == s.attempts[t := s'.attempts[t]]
      && s'.cancels == s.cancels && s'.works == s.works
      && (s'.log == s.log || (|s'.log| == |s.log| + 1 && s.log <= s'.log && s'.log[|s.log|].Retrying?))
  {
  }

  /** A cancellation keeps its job, or is new and was asked for. */
  ghost predicate CallsGrow(config: Config, run: seq<Event>, s: State, s': State) {
    forall k | 0 <= k < |s'.cancels| ::
      || CallEarned(config, run, s', s'.cancels[k])
      || (k < |s.cancels| && s'.cancels[k].job == s.cancels[k].job)
  }

  /** An event that causes every outcome that it adds earns it. */
  lemma EarnedStep(config: Config, run: seq<Event>, e: Event, s: State, s': State)
    requires Earned(config, run, s) && Grows(s, s') && AttemptsMove(e, s, s')
    requires s' == s || Enabled(After(config, run), e)
    requires CallsGrow(config, run + [e], s, s')
    requires forall k | |s.log| <= k < |s'.log| :: RecordEarned(config, run + [e], s', s'.log[k])
    ensures Earned(config, run + [e], s')
  {
    forall t | t in s'.attempts
      ensures AttemptEarned(config, run + [e], s'.attempts[t]) && Logged(s', t)
    {
      if t in s.attempts {
        MovesEarn(config, run, e, s.attempts[t], s'.attempts[t]);
        LoggedLater(s, s', t);
      }
    }
    forall k | 0 <= k < |s'.cancels|
      ensures CallEarned(config, run + [e], s', s'.cancels[k])
    {
      if !CallEarned(config, run + [e], s', s'.cancels[k]) {
        assert CallEarned(config, run, s, s.cancels[k]);
        AskedLater(config, run, e, s.cancels[k].job);
      }
    }
    forall k | 0 <= k < |s'.log|
      ensures RecordEarned(config, run + [e], s', s'.log[k])
    {
      if k < |s.log| {
        assert s'.log[k] == s.log[k];
        RecordLater(config, run, e, s, s', s.log[k]);
      }
    }
  }

  lemma ReadyMoves(e: Event, s: State, ready: State, s': State)
    requires ready.attempts == s.attempts && s.works <= ready.works
    requires ready.log == s.log || (|ready.log| == |s.log| + 1 && s.log <= ready.log && ready.log[|s.log|].Enqueued?)
    requires s'.log == ready.log || (|s'.log| == |ready.log| + 1 && s'.log[|ready.log|].Started?)
    requires Grows(ready, s') && AttemptsMove(e, ready, s')
    ensures Grows(s, s') && AttemptsMove(e, s, s')
    ensures forall k | |s.log| <= k < |s'.log| :: s'.log[k].Started? || s'.log[k].Enqueued?
  {
  }

  lemma NoOutcomes(config: Config, run: seq<Event>, s: State, s': State)
    requires forall k | |s.log| <= k < |s'.log| :: s'.log[k].Started? || s'.log[k].Enqueued?
    ensures forall k | |s.log| <= k < |s'.log| :: RecordEarned(config, run, s', s'.log[k])
  {
  }

  lemma SameCalls(config: Config, run: seq<Event>, s: State, s': State)
    requires s'.cancels == s.cancels
    ensures CallsGrow(config, run, s, s')
  {
  }

  /** A drain after a change that touches neither attempts nor cancellations. */
  lemma DrainEarned(config: Config, run: seq<Event>, e: Event, s: State, ready: State, now: int)
    requires Inv(config, ready) && Earned(config, run, s) && Enabled(After(config, run), e)
    requires ready.attempts == s.attempts && ready.cancels == s.cancels && s.works <= ready.works
    requires ready.log == s.log || (|ready.log| == |s.log| + 1 && s.log <= ready.log && ready.log[|s.log|].Enqueued?)
    ensures Earned(config, run + [e], Drain(config, ready, now))
  {
    hide *;
    var s' := Drain(config, ready, now);
    DrainMoves(config, e, ready, now);
    ReadyMoves(e, s, ready, s');
    SameCalls(config, run + [e], s, s');
    NoOutcomes(config, run + [e], s, s');
    EarnedStep(config, run, e, s, s');
  }

  lemma ScheduleEarned(config: Config, run: seq<Event>, s: State, e: Event)
    requires Inv(config, s) && Reached(config, run, s, e) && Schedules(e)
    ensures Earned(config, run + [e], Step(config, s, e))
  {
    match e
    case Enqueue(work, at, now) =>
      InsertKeeps(config, s, work, at);
      DrainEarned(config, run, e, s, Insert(s, work, at), now);
    case DrainTick(now) =>
      OthersKeep(config, s, s.drains - 1, s.cancels);
      DrainEarned(config, run, e, s, s.(drains := s.drains - 1), now);
    case Wake(entry, now) =>
      UnparkKeeps(config, s, entry);
      DrainEarned(config, run, e, s, Unpark(s, entry), now);
  }

  lemma RejectEarned(config: Config, run: seq<Event>, s: State, e: Event)
    requires Filed(s) && Reached(config, run, s, e) && e.Rejected?
    ensures Earned(config, run + [e], Reject(config, s, e.t, e.error, e.draw, e.now))
  {
    hide Earned;
    var id := s.attempts[e.t].entry.work.executionId;
    var freed := ReleaseSlot(s, id);
    var s' := Reject(config, s, e.t, e.error, e.draw, e.now);
    ErrorMoves(config, e, freed, e.t, ByPromise, e.error, e.draw, e.now);
    var handle := if id in s.running then s.running[id] else e.t;
    if id in s.running {
      ClearThenMove(e, s, handle, e.t, s'.attempts[e.t], s');
    } else {
      OneMoves(e, s, e.t, s'.attempts[e.t]);
    }
    EarnedStep(config, run, e, s, s');
  }

  lemma TimeoutEarned(config: Config, run: seq<Event>, s: State, e: Event)
    requires Filed(s) && Reached(config, run, s, e) && e.TimeoutHandled?
    ensures Earned(config, run + [e], HandleError(config, s, e.t, ByTimer, TIMEOUT_ERROR, e.draw, e.now))
  {
    var s' := HandleError(config, s, e.t, ByTimer, TIMEOUT_ERROR, e.draw, e.now);
    ErrorMoves(config, e, s, e.t, ByTimer, TIMEOUT_ERROR, e.draw, e.now);
    OneMoves(e, s, e.t, s'.attempts[e.t]);
    EarnedStep(config, run, e, s, s');
  }

  lemma JustAsked(config: Config, run: seq<Event>, s: State, id: string, j: nat)
    requires s == After(config, run) && j < |s.works| && s.works[j].executionId == id
    ensures Asked(config, run + [CancelRequested(id)], j)
  {
    JustDelivered(config, run, CancelRequested(id));
    assert AsksFor(s, CancelRequested(id), j);
  }

  lemma CancelQueuedEarned(config: Config, run: seq<Event>, s: State, id: string, i: nat)
    requires Inv(config, s) && Reached(config, run, s, CancelRequested(id))
    requires i < |s.queue| && s.queue[i].work.executionId == id
    ensures
      var call := CancelCall(id, s.queue[i].job, WritingCancelled);
      Earned(config, run + [CancelRequested(id)], s.(queue := RemoveAt(s.queue, i), cancels := s.cancels + [call]))
  {
    var e := CancelRequested(id);
    var call := CancelCall(id, s.queue[i].job, WritingCancelled);
    var s' := s.(queue := RemoveAt(s.queue, i), cancels := s.cancels + [call]);
    assert Known(s, s.queue[i]) && WellBorn(s, s.queue[i].ticket);
    hide Inv, Earned, Asked;
    JustAsked(config, run, s, id, call.job);
    OneCallGrows(config, run + [e], s, s', call);
    EarnedStep(config, run, e, s, s');
  }

  /** The holder of a slot works for a job with the slot's execution id. */
  lemma SlotJob(config: Config, s: State, id: string)
    requires Inv(config, s) && id in s.running
    ensures s.running[id] in s.attempts
    ensures
      var j := s.attempts[s.running[id]].entry.job;
      j < |s.works| && s.works[j].executionId == id
  {
    assert WellBorn(s, s.running[id]);
  }

  lemma CancelRunningMoves(e: Event, s: State, id: string, call: CancelCall)
    requires id in s.running
    ensures var s' := ReleaseSlot(s, id).(cancels := s.cancels + [call]);
      Grows(s, s') && AttemptsMove(e, s, s') && s'.cancels == s.cancels + [call] && s'.works == s.works && s'.log == s.log
  {
    ClearMoves(e, s, s.running[id]);
  }

  lemma OneCallGrows(config: Config, run: seq<Event>, s: State, s': State, call: CancelCall)
    requires s'.cancels == s.cancels + [call] && CallEarned(config, run, s', call)
    ensures CallsGrow(config, run, s, s')
  {
  }

  lemma CancelRunningEarned(config: Config, run: seq<Event>, s: State, id: string)
    requires Inv(config, s) && Reached(config, run, s, CancelRequested(id)) && id in s.running
    ensures
      var call := CancelCall(id, s.attempts[s.running[id]].entry.job, CancellingRun);
      Earned(config, run + [CancelRequested(id)], ReleaseSlot(s, id).(cancels := s.cancels + [call]))
  {
    SlotJob(config, s, id);
    hide Inv, Earned, Asked;
    var e := CancelRequested(id);
    var call := CancelCall(id, s.attempts[s.running[id]].entry.job, CancellingRun);
    var s' := ReleaseSlot(s, id).(cancels := s.cancels + [call]);
    JustAsked(config, run, s, id, call.job);
    assert CallEarned(config, run + [e], s', call);
    CancelRunningMoves(e, s, id, call);
    OneCallGrows(config, run + [e], s, s', call);
    hide *;
    EarnedStep(config, run, e, s, s');
  }

  lemma QuietEarned(config: Config, run: seq<Event>, s: State, e: Event)
    requires Earned(config, run, s)
    ensures Earned(config, run + [e], s)
  {
    EarnedStep(config, run, e, s, s);
  }

  lemma CancelEarned(config: Config, run: seq<Event>, s: State, id: string)
    requires Inv(config, s) && Reached(config, run, s, CancelRequested(id))
    ensures Earned(config, run + [CancelRequested(id)], Cancel(s, id))
  {
    var i := FindExecution(s.queue, id);
    if i >= 0 {
      CancelQueuedEarned(config, run, s, id, i);
    } else if id in s.running {
      CancelRunningEarned(config, run, s, id);
    } else {
      QuietEarned(config, run, s, CancelRequested(id));
    }
  }

  lemma RunCancelledEarned(config: Config, run: seq<Event>, s: State, k: nat)
    requires Reached(config, run, s, RunCancelled(k))
    ensures Earned(config, run + [RunCancelled(k)], SetCancel(s, k, WritingCancelled))
  {
    EarnedStep(config, run, RunCancelled(k), s, SetCancel(s, k, WritingCancelled));
  }

  lemma CancelWriteEarned(config: Config, run: seq<Event>, s: State, k: nat, ok: bool)
    requires Reached(config, run, s, CancelWriteDone(k, ok))
    ensures
      var done := SetCancel(s, k, CancelDone);
      Earned(config, run + [CancelWriteDone(k, ok)], if ok then Append(done, Cancelled(s.cancels[k].job)) else done)
  {
    var e := CancelWriteDone(k, ok);
    var done := SetCancel(s, k, CancelDone);
    var s' := if ok then Append(done, Cancelled(s.cancels[k].job)) else done;
    assert CallEarned(config, run, s, s.cancels[k]);
    AskedLater(config, run, e, s.cancels[k].job);
    hide Earned, Asked;
    EarnedStep(config, run, e, s, s');
  }

  lemma ResolveEarned(config: Config, run: seq<Event>, s: State, t: nat)
    requires Filed(s) && Reached(config, run, s, CallResolved(t))
    ensures Earned(config, run + [CallResolved(t)], Resolve(s, t))
  {
    var s' := Resolve(s, t);
    ClearThenMove(CallResolved(t), s, t, t, s'.attempts[t], s');
    EarnedStep(config, run, CallResolved(t), s, s');
  }

  lemma PhaseEarned(config: Config, run: seq<Event>, s: State, e: Event)
    requires Filed(s) && Reached(config, run, s, e)
    requires e.RunningWritten? || e.TimerFired?
    ensures Earned(config, run + [e], Step(config, s, e))
  {
    var s' := Step(config, s, e);
    OneMoves(e, s, e.t, s'.attempts[e.t]);
    EarnedStep(config, run, e, s, s');
  }

  /** One route of an attempt is done with, and at most a record of it is added. */
  lemma CloseMoves(e: Event, s: State, t: nat, route: Route, more: seq<Record>)
    requires t in s.attempts
    ensures
      var s' := CloseRoute(s, t, route).(log := s.log + more);
      && Grows(s, s') && AttemptsMove(e, s, s')
      && s'.cancels == s.cancels && s'.attempts[t].entry == s.attempts[t].entry
  {
    var s' := CloseRoute(s, t, route).(log := s.log + more);
    OneMoves(e, s, t, s'.attempts[t]);
  }

  lemma SuccessEarned(config: Config, run: seq<Event>, s: State, t: nat)
    requires Filed(s) && Reached(config, run, s, SuccessWritten(t))
    ensures Earned(config, run + [SuccessWritten(t)], Append(SetPromise(s, t, Settled), Completed(s.attempts[t].entry.job)))
  {
    var e := SuccessWritten(t);
    var j := s.attempts[t].entry.job;
    var s' := Append(SetPromise(s, t, Settled), Completed(j));
    assert AttemptEarned(config, run, s.attempts[t]) && s.attempts[t].entry.ticket == t;
    assert s' == CloseRoute(s, t, ByPromise).(log := s.log + [Completed(j)]);
    assert Earned(config, run, s) && Enabled(After(config, run), e) && Happened(config, run, CallResolved(t));
    assert s'.attempts[t].entry == s.attempts[t].entry && IsAttemptOf(s', t, j);
    hide *;
    CloseMoves(e, s, t, ByPromise, [Completed(j)]);
    HappenedLater(config, run, e, CallResolved(t));
    SameCalls(config, run + [e], s, s');
    CompletedRecord(config, run + [e], s', t, j);
    EarnedStep(config, run, e, s, s');
  }

  lemma CompletedRecord(config: Config, run: seq<Event>, s: State, t: nat, j: nat)
    requires IsAttemptOf(s, t, j) && Happened(config, run, CallResolved(t))
    ensures RecordEarned(config, run, s, Completed(j))
  {
  }

  lemma FailedRecord(config: Config, run: seq<Event>, s: State, t: nat, j: nat)
    requires IsAttemptOf(s, t, j) && Exhausted(config, run, s.attempts[t])
    ensures RecordEarned(config, run, s, Failed(j))
  {
  }

  lemma FailureEarned(config: Config, run: seq<Event>, s: State, t: nat, route: Route, ok: bool)
    requires Filed(s) && Reached(config, run, s, FailedWriteDone(t, route, ok))
    ensures
      var closed := CloseRoute(s, t, route);
      Earned(config, run + [FailedWriteDone(t, route, ok)],
             if ok then Append(closed, Failed(s.attempts[t].entry.job)) else closed)
  {
    var e := FailedWriteDone(t, route, ok);
    var j := s.attempts[t].entry.job;
    var more := if ok then [Failed(j)] else [];
    var s' := CloseRoute(s, t, route).(log := s.log + more);
    assert s.log + [] == s.log;
    assert AttemptEarned(config, run, s.attempts[t]) && s.attempts[t].entry.ticket == t;
    assert Exhausted(config, run, s.attempts[t]);
    assert Earned(config, run, s) && Enabled(After(config, run), e);
    assert t in s'.attempts && IsAttemptOf(s', t, j);
    hide *;
    CloseMoves(e, s, t, route, more);
    ExhaustedLater(config, run, e, s.attempts[t]);
    SameExhausted(config, run + [e], s.attempts[t], s'.attempts[t]);
    SameCalls(config, run + [e], s, s');
    FailedRecord(config, run + [e], s', t, j);
    EarnedStep(config, run, e, s, s');
  }

  lemma SameExhausted(config: Config, run: seq<Event>, a: Attempt, b: Attempt)
    requires Exhausted(config, run, a) && b.entry == a.entry
    ensures Exhausted(config, run, b)
  {
  }

  lemma EventEarned(config: Config, run: seq<Event>, s: State, e: Event)
    requires Inv(config, s) && Reached(config, run, s, e)
    ensures Earned(config, run + [e], Step(config, s, e))
  {
    hide Inv, Earned;
    InvFiled(config, s);
    match e
    case Enqueue(_, _, _) => ScheduleEarned(config, run, s, e);
    case DrainTick(_) => ScheduleEarned(config, run, s, e);
    case Wake(_, _) => ScheduleEarned(config, run, s, e);
    case RunningWritten(_) => PhaseEarned(config, run, s, e);
    case CallResolved(t) => ResolveEarned(config, run, s, t);
    case Rejected(_, _, _, _) => RejectEarned(config, run, s, e);
    case SuccessWritten(t) => SuccessEarned(config, run, s, t);
    case TimerFired(_) => PhaseEarned(config, run, s, e);
    case TimeoutHandled(_, _, _) => TimeoutEarned(config, run, s, e);
    case FailedWriteDone(t, route, ok) => FailureEarned(config, run, s, t, route, ok);
    case CancelRequested(id) => CancelEarned(config, run, s, id);
    case RunCancelled(k) => RunCancelledEarned(config, run, s, k);
    case CancelWriteDone(k, ok) => CancelWriteEarned(config, run, s, k, ok);
  }

  lemma {:induction false} RunEarned(config: Config, run: seq<Event>)
    ensures Earned(config, run, After(config, run))
  {
    if run != [] {
      var before, e := run[..|run| - 1], run[|run| - 1];
      var s := After(config, before);
      RunEarned(config, before);
      RunKeeps(config, before);
      assert run == before + [e];
      if Enabled(s, e) {
        EventEarned(config, before, s, e);
      } else {
        QuietEarned(config, before, s, e);
      }
    }
  }

  // ---------------------------------------------------------------------------------
  // The theorems

  /**
   A completed event means that a call for this job was under way and resolved; a cancelled
   one, that someone asked for it after the job had been accepted.
   */
  lemma {:induction false} OutcomeHasCause(config: Config, run: seq<Event>, j: nat)
    ensures
      var s := After(config, run);
      Completed(j) in s.log ==> exists t :: IsAttemptOf(s, t, j) && Happened(config, run, CallResolved(t))
    ensures Cancelled(j) in After(config, run).log ==> Asked(config, run, j)
  {
    RunEarned(config, run);
    hide Next;
    var s := After(config, run);
    if Completed(j) in s.log {
      assert RecordEarned(config, run, s, Completed(j));
    }
    if Cancelled(j) in s.log {
      assert RecordEarned(config, run, s, Cancelled(j));
    }
  }

  /** An attempt at level n has n + 1 starts to its job's name: its own and one at each lower level. */
  lemma {:induction false} LevelsStarted(config: Config, run: seq<Event>, s: State, t: nat) returns (starts: set<int>)
    requires Inv(config, s) && Earned(config, run, s) && Filed(s) && t in s.attempts
    ensures starts <= Starts(s.log, s.attempts[t].entry.job)
    ensures |starts| == s.attempts[t].entry.retryCount + 1
    ensures forall k | k in starts :: s.log[k].entry.retryCount <= s.attempts[t].entry.retryCount
    decreases t
  {
    var e := s.attempts[t].entry;
    assert Logged(s, t) && WellBorn(s, t);
    var own :| 0 <= own < |s.log| && s.log[own].Started? && s.log[own].entry == e;
    match e.origin
    case First =>
      starts := {own};
    case RetryOf(parent, _) =>
      var lower := LevelsStarted(config, run, s, parent);
      starts := lower + {own};
  }

  lemma LevelsCount(config: Config, run: seq<Event>, s: State, t: nat)
    requires Inv(config, s) && Earned(config, run, s) && Filed(s) && t in s.attempts
    ensures |Starts(s.log, s.attempts[t].entry.job)| >= s.attempts[t].entry.retryCount + 1
  {
    var starts := LevelsStarted(config, run, s, t);
    var all := Starts(s.log, s.attempts[t].entry.job);
    assert |all| == |starts| + |all - starts| by {
      assert all == starts + (all - starts);
    }
  }

  /** An attempt of job j failed with an error that is not retried. */
  ghost predicate RefusedJob(config: Config, run: seq<Event>, j: nat) {
    exists t :: IsAttemptOf(After(config, run), t, j) && Refused(config, run, t)
  }

  lemma FailureCount(config: Config, run: seq<Event>, s: State, j: nat)
    requires s == After(config, run) && Inv(config, s) && Earned(config, run, s) && Failed(j) in s.log
    requires !RefusedJob(config, run, j)
    ensures j < |s.works| && |Starts(s.log, j)| >= Budget(s.works[j]) + 1
  {
    InvFiled(config, s);
    var k :| 0 <= k < |s.log| && s.log[k] == Failed(j);
    assert RecordEarned(config, run, s, s.log[k]);
    var t :| IsAttemptOf(s, t, j) && Exhausted(config, run, s.attempts[t]);
    assert WellBorn(s, t);
    LevelsCount(config, run, s, t);
  }

  /** In any run a job fails only after an error that is not retried, or after maxRetries + 1 attempts. */
  lemma {:induction false} FailsOnlyWhenSpent(config: Config, run: seq<Event>, j: nat)
    ensures
      var s := After(config, run);
      Failed(j) in s.log ==>
        RefusedJob(config, run, j) || (j < |s.works| && |Starts(s.log, j)| >= Budget(s.works[j]) + 1)
  {
    RunEarned(config, run);
    RunKeeps(config, run);
    hide Next;
    if Failed(j) in After(config, run).log && !RefusedJob(config, run, j) {
      FailureCount(config, run, After(config, run), j);
    }
  }

  /** And after exactly so many if no attempt of the job was retried by both of its routes. */
  lemma {:induction false} FailureIsExact(config: Config, run: seq<Event>, j: nat)
    requires FreshRun(config, run, j)
    ensures
      var s := After(config, run);
      Failed(j) in s.log ==>
        RefusedJob(config, run, j) || (j < |s.works| && |Starts(s.log, j)| == Budget(s.works[j]) + 1)
  {
    FailsOnlyWhenSpent(config, run, j);
    OnceRetriedBound(config, run, j);
  }
}
