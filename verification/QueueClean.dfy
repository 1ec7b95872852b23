/**
 Clean runs of the queue: execution ids are distinct, the call of an attempt that has lost
 its slot to a timeout or a cancellation never settles, and final status writes succeed. Such
 runs meet the guards of every job, so they conserve every execution and retry no attempt twice.
 */
module QueueClean {
  import opened Backoff
  import opened QueueModel
  import opened QueueInvariant
  import opened QueueBounds
  import opened QueuePlaces
  import opened QueueConservation
  import opened QueueRetries

  /** What makes an event clean in state s. */
  predicate Clean(s: State, e: Event) {
    match e
    case Enqueue(work, _, _) => forall j | 0 <= j < |s.works| :: s.works[j].executionId != work.executionId
    case CallResolved(t) => t in s.attempts ==> HoldsSlot(s, s.attempts[t])
    case Rejected(t, _, _, _) =>
      t in s.attempts && s.attempts[t].promise != WritingSuccess ==> HoldsSlot(s, s.attempts[t])
    case FailedWriteDone(_, _, ok) => ok
    case CancelWriteDone(_, ok) => ok
    case _ => true
  }

  predicate CleanRun(config: Config, run: seq<Event>) {
    run == []
    || (CleanRun(config, run[..|run| - 1]) && Clean(After(config, run[..|run| - 1]), run[|run| - 1]))
  }

  ghost predicate DistinctIds(works: seq<Work>) {
    forall i, j | 0 <= i < j < |works| :: works[i].executionId != works[j].executionId
  }

  /** An armed timeout means a slot; a promise that has moved on disarmed it. */
  predicate InStep(s: State, t: nat)
    requires t in s.attempts
  {
    var a := s.attempts[t];
    && (a.timer.Armed? <==> HoldsSlot(s, a))
    && (a.promise in {WritingRunning, Calling} || a.timer.Disarmed?)
  }

  ghost predicate AllInStep(s: State) {
    forall t {:trigger InStep(s, t)} | t in s.attempts :: InStep(s, t)
  }

  // ---------------------------------------------------------------------------------
  // Clean events meet the guards

  /** With distinct ids, a slot of this id is held for the one job that has it. */
  lemma SlotOwner(config: Config, s: State, id: string, i: nat, j: nat)
    requires Inv(config, s) && DistinctIds(s.works)
    requires SlotIsFor(s, id, i) && j < |s.works| && s.works[j].executionId == id
    ensures i == j
  {
    assert WellBorn(s, s.running[id]);
  }

  lemma SlotHolder(config: Config, s: State, id: string, j: nat)
    requires Inv(config, s) && DistinctIds(s.works) && j < |s.works| && s.works[j].executionId == id
    ensures id in s.running ==> At(s, j, InSlot(s.running[id]))
  {
    if id in s.running {
      var h := s.running[id];
      assert WellBorn(s, h);
      SlotOwner(config, s, id, s.attempts[h].entry.job, j);
    }
  }

  lemma HeadSlotFree(config: Config, s: State)
    requires Inv(config, s) && DistinctIds(s.works) && s.queue != [] && AtMostOne(s, s.queue[0].job)
    ensures s.queue[0].work.executionId !in s.running
  {
    var e := s.queue[0];
    var id := e.work.executionId;
    assert Known(s, e) && WellBorn(s, e.ticket);
    assert At(s, e.job, InQueue(e.ticket));
    SlotHolder(config, s, id, e.job);
  }

  lemma FinishingSlotFree(config: Config, s: State, t: nat)
    requires Inv(config, s) && DistinctIds(s.works) && t in s.attempts && AtMostOne(s, s.attempts[t].entry.job)
    requires Finishing(s.attempts[t])
    ensures s.attempts[t].entry.work.executionId !in s.running
  {
    var a := s.attempts[t];
    var id := a.entry.work.executionId;
    assert WellBorn(s, t);
    assert At(s, a.entry.job, InTransition(t));
    SlotHolder(config, s, id, a.entry.job);
  }

  lemma InsertDistinct(s: State, work: Work, at: int)
    requires DistinctIds(s.works) && forall j | 0 <= j < |s.works| :: s.works[j].executionId != work.executionId
    ensures DistinctIds(Insert(s, work, at).works)
  {
  }

  /** No job is in two places. */
  ghost predicate Apiece(s: State) {
    forall j: nat :: AtMostOne(s, j)
  }

  lemma ReadyApiece(config: Config, s: State, e: Event) returns (ready: State)
    requires Inv(config, s) && Accepted(s) && Apiece(s) && Enabled(s, e) && Schedules(e)
    requires DistinctIds(s.works) && Clean(s, e)
    ensures Inv(config, ready) && Apiece(ready) && DistinctIds(ready.works)
    ensures ready.attempts == s.attempts && ready.running == s.running
    ensures Step(config, s, e) == Drain(config, ready, e.now)
    ensures ready == match e
                     case Enqueue(work, at, _) => Insert(s, work, at)
                     case DrainTick(_) => s.(drains := s.drains - 1)
                     case Wake(entry, _) => Unpark(s, entry)
  {
    hide Inv, Accepted, AtMostOne, DistinctIds, Drain;
    match e
    case Enqueue(work, at, _) =>
      ready := Insert(s, work, at);
      InsertKeeps(config, s, work, at);
      InsertDistinct(s, work, at);
      forall j: nat
        ensures AtMostOne(ready, j)
      {
        InsertPlaces(config, s, work, at, j);
      }
    case DrainTick(_) =>
      ready := s.(drains := s.drains - 1);
      OthersKeep(config, s, s.drains - 1, s.cancels);
      forall j: nat
        ensures AtMostOne(ready, j)
      {
        TickPlaces(s, j);
      }
    case Wake(entry, _) =>
      ready := Unpark(s, entry);
      UnparkKeeps(config, s, entry);
      forall j: nat
        ensures AtMostOne(ready, j)
      {
        UnparkPlaces(config, s, entry, j);
      }
  }

  lemma ScheduleKeeps(config: Config, s: State, e: Event, j: nat)
    requires Inv(config, s) && Accepted(s) && Apiece(s) && Enabled(s, e) && Schedules(e)
    requires DistinctIds(s.works) && Clean(s, e)
    ensures Keeps(config, s, e, j)
  {
    var ready := ReadyApiece(config, s, e);
    hide Inv, Accepted, AtMostOne, DistinctIds;
    if ready.queue != [] {
      assert AtMostOne(ready, ready.queue[0].job);
      HeadSlotFree(config, ready);
    }
    if e.DrainTick? {
      TickOverwrites(config, s, e.now, j);
    }
  }

  lemma OwnSlot(config: Config, s: State, t: nat, j: nat)
    requires Inv(config, s) && DistinctIds(s.works) && t in s.attempts
    ensures FreesOwn(s, s.attempts[t], j)
  {
    assert WellBorn(s, t);
    if SlotIsFor(s, s.attempts[t].entry.work.executionId, j) {
      SlotOwner(config, s, s.attempts[t].entry.work.executionId, j, s.attempts[t].entry.job);
    }
  }

  /** A clean event meets the guard of every job. */
  lemma CleanKeeps(config: Config, s: State, e: Event, j: nat)
    requires Inv(config, s) && Accepted(s) && Apiece(s) && AllInStep(s) && DistinctIds(s.works)
    requires Enabled(s, e) && Clean(s, e)
    ensures Keeps(config, s, e, j)
  {
    if Schedules(e) {
      ScheduleKeeps(config, s, e, j);
    } else if !e.CancelRequested? && !e.RunCancelled? && !e.CancelWriteDone? {
      InvFiled(config, s);
      OwnSlot(config, s, e.t, j);
      hide Inv, Accepted, Apiece, DistinctIds;
      assert InStep(s, e.t) && s.attempts[e.t].entry.ticket == e.t;
    }
  }

  lemma RetriedSpent(config: Config, s: State, t: nat)
    requires Inv(config, s) && t in s.attempts
    ensures Retried(s, t) ==> Spent(s.attempts[t], ByPromise) || Spent(s.attempts[t], ByTimer)
  {
    if Retried(s, t) {
      var u :| 0 <= u < |s.issued| && s.issued[u].origin.RetryOf? && s.issued[u].origin.parent == t;
      assert WellBorn(s, u);
    }
  }

  /** A clean event retries no attempt again. */
  lemma CleanFresh(config: Config, s: State, e: Event, j: nat)
    requires Inv(config, s) && AllInStep(s) && Enabled(s, e) && Clean(s, e)
    ensures Fresh(s, e, j)
  {
    if Retries(s, e) {
      assert InStep(s, e.t);
      RetriedSpent(config, s, e.t);
    }
  }

  // ---------------------------------------------------------------------------------
  // Clean events keep attempts in step

  lemma StartInStep(s: State, e: Entry, now: int)
    requires Filed(s) && AllInStep(s) && e.ticket !in s.attempts && e.work.executionId !in s.running
    ensures AllInStep(Start(s, e, now))
  {
    var s' := Start(s, e, now);
    forall t | t in s'.attempts
      ensures InStep(s', t)
    {
      if t in s.attempts {
        assert InStep(s, t);
      }
    }
  }

  lemma StepsStay(s: State, s': State)
    requires AllInStep(s) && s'.attempts == s.attempts && s'.running == s.running
    ensures AllInStep(s')
  {
    forall t | t in s'.attempts
      ensures InStep(s', t)
    {
      assert InStep(s, t);
    }
  }

  lemma DrainInStep(config: Config, s: State, now: int)
    requires Inv(config, s) && AllInStep(s) && DistinctIds(s.works) && Apiece(s)
    ensures AllInStep(Drain(config, s, now))
  {
    var s' := Drain(config, s, now);
    DrainCases(config, s, now);
    if s'.attempts == s.attempts && s'.running == s.running {
      StepsStay(s, s');
    } else {
      var mid := s.(queue := s.queue[1..]);
      assert AtMostOne(s, s.queue[0].job);
      InvFiled(config, s);
      PopFiled(s);
      HeadFresh(config, s);
      HeadSlotFree(config, s);
      hide Inv, DistinctIds, Apiece, AtMostOne, Filed, AllInStep;
      StepsStay(s, mid);
      StartInStep(mid, s.queue[0], now);
      StepsStay(Start(mid, s.queue[0], now), s');
    }
  }

  /** An attempt that holds no slot and has no armed timeout changes phase. */
  lemma PhaseInStep(s: State, t: nat, a: Attempt)
    requires AllInStep(s) && t in s.attempts && a.entry == s.attempts[t].entry
    requires a.timer.Armed? == s.attempts[t].timer.Armed?
    requires a.promise in {WritingRunning, Calling} || a.timer.Disarmed?
    ensures AllInStep(s.(attempts := s.attempts[t := a]))
  {
    var s' := s.(attempts := s.attempts[t := a]);
    forall u | u in s'.attempts
      ensures InStep(s', u)
    {
      assert InStep(s, u) && InStep(s, t);
    }
  }

  /** The slot's owner lets go: its timeout is no longer armed and everyone else is as before. */
  lemma ReleaseInStep(s: State, s': State, t: nat, timer: TimerPhase)
    requires Filed(s) && AllInStep(s) && t in s.attempts && HoldsSlot(s, s.attempts[t]) && timer != Armed
    requires s'.attempts == s.attempts[t := s.attempts[t].(timer := timer)]
    requires s'.running == s.running - {s.attempts[t].entry.work.executionId}
    ensures AllInStep(s')
  {
    assert InStep(s, t) && s.attempts[t].entry.ticket == t;
    forall u | u in s'.attempts
      ensures InStep(s', u)
    {
      assert InStep(s, u) && s.attempts[u].entry.ticket == u;
    }
  }

  lemma ErrorInStep(config: Config, s: State, t: nat, route: Route, error: ExecutionError, draw: Jitter, now: int)
    requires AllInStep(s) && t in s.attempts && !s.attempts[t].timer.Armed?
    requires if route.ByPromise? then s.attempts[t].timer.Disarmed? else s.attempts[t].promise in {WritingRunning, Calling}
    ensures AllInStep(HandleError(config, s, t, route, error, draw, now))
  {
    var s' := HandleError(config, s, t, route, error, draw, now);
    PhaseInStep(s, t, s'.attempts[t]);
    StepsStay(s.(attempts := s.attempts[t := s'.attempts[t]]), s');
  }

  lemma RejectInStep(config: Config, s: State, e: Event)
    requires Inv(config, s) && AllInStep(s) && DistinctIds(s.works) && Apiece(s)
    requires Enabled(s, e) && Clean(s, e) && e.Rejected?
    ensures AllInStep(Step(config, s, e))
  {
    var a := s.attempts[e.t];
    var freed := ReleaseSlot(s, a.entry.work.executionId);
    InvFiled(config, s);
    assert InStep(s, e.t) && a.entry.ticket == e.t && AtMostOne(s, a.entry.job);
    if HoldsSlot(s, a) {
      ReleaseInStep(s, freed, e.t, Disarmed);
    } else {
      FinishingSlotFree(config, s, e.t);
    }
    hide Inv, DistinctIds, Apiece, AllInStep;
    ErrorInStep(config, freed, e.t, ByPromise, e.error, e.draw, e.now);
  }

  lemma CancelFrees(s: State, executionId: string)
    ensures var s' := Cancel(s, executionId);
      if FindExecution(s.queue, executionId) < 0 && executionId in s.running && s.running[executionId] in s.attempts then
        && s'.running == s.running - {executionId}
        && s'.attempts == ClearTimeout(s.attempts, s.running[executionId])
      else s'.attempts == s.attempts && s'.running == s.running
  {
  }

  lemma CancelInStep(s: State, executionId: string)
    requires Filed(s) && AllInStep(s)
    ensures AllInStep(Cancel(s, executionId))
  {
    CancelFrees(s, executionId);
    hide Cancel, FindExecution;
    var s' := Cancel(s, executionId);
    if s'.attempts == s.attempts && s'.running == s.running {
      StepsStay(s, s');
    } else {
      var h := s.running[executionId];
      assert s.attempts[h].entry.ticket == h && InStep(s, h);
      hide AllInStep;
      ReleaseInStep(s, s', h, Disarmed);
    }
  }

  lemma SettleInStep(config: Config, s: State, e: Event)
    requires Filed(s) && AllInStep(s) && Enabled(s, e) && Clean(s, e)
    requires e.CallResolved? || e.TimerFired?
    ensures AllInStep(Step(config, s, e))
  {
    var a := s.attempts[e.t];
    var timer := if e.CallResolved? then Disarmed else CancellingCall;
    var freed := s.(attempts := s.attempts[e.t := a.(timer := timer)], running := s.running - {a.entry.work.executionId});
    assert InStep(s, e.t) && a.entry.ticket == e.t;
    ReleaseInStep(s, freed, e.t, timer);
    hide AllInStep;
    if e.CallResolved? {
      var resolved := a.(timer := Disarmed, promise := WritingSuccess);
      PhaseInStep(freed, e.t, resolved);
      StepsStay(freed.(attempts := freed.attempts[e.t := resolved]), Step(config, s, e));
    } else {
      StepsStay(freed, Step(config, s, e));
    }
  }

  lemma EndInStep(config: Config, s: State, e: Event)
    requires AllInStep(s) && Enabled(s, e)
    requires e.RunningWritten? || e.SuccessWritten? || e.FailedWriteDone?
    ensures AllInStep(Step(config, s, e))
  {
    var s' := Step(config, s, e);
    assert InStep(s, e.t);
    PhaseInStep(s, e.t, s'.attempts[e.t]);
    StepsStay(s.(attempts := s.attempts[e.t := s'.attempts[e.t]]), s');
  }

  lemma StepInStep(config: Config, s: State, e: Event)
    requires Inv(config, s) && Accepted(s) && Apiece(s) && AllInStep(s) && DistinctIds(s.works)
    requires Enabled(s, e) && Clean(s, e)
    ensures AllInStep(Step(config, s, e)) && DistinctIds(Step(config, s, e).works)
  {
    WorksGrow(config, s, e);
    InvFiled(config, s);
    hide Inv, Accepted, Apiece, AllInStep;
    if Schedules(e) {
      var ready := ReadyApiece(config, s, e);
      StepsStay(s, ready);
      DrainInStep(config, ready, e.now);
    } else if e.Rejected? {
      RejectInStep(config, s, e);
    } else if e.CallResolved? || e.TimerFired? {
      SettleInStep(config, s, e);
    } else if e.TimeoutHandled? {
      TimeoutInStep(config, s, e);
    } else if e.CancelRequested? {
      CancelInStep(s, e.executionId);
    } else if e.RunCancelled? || e.CancelWriteDone? {
      StepsStay(s, Step(config, s, e));
    } else {
      EndInStep(config, s, e);
    }
  }

  lemma TimeoutInStep(config: Config, s: State, e: Event)
    requires AllInStep(s) && Enabled(s, e) && e.TimeoutHandled?
    ensures AllInStep(Step(config, s, e))
  {
    assert InStep(s, e.t);
    ErrorInStep(config, s, e.t, ByTimer, TIMEOUT_ERROR, e.draw, e.now);
  }

  // ---------------------------------------------------------------------------------
  // Clean runs

  lemma RunApiece(config: Config, run: seq<Event>)
    requires forall j: nat :: KeepingRun(config, run, j)
    ensures Apiece(After(config, run))
  {
    var s := After(config, run);
    RunAccepted(config, run);
    assert run[..|run|] == run;
    forall j: nat
      ensures AtMostOne(s, j)
    {
      assert KeepingRun(config, run, j);
      Conservation(config, run, j);
      hide After, OnePlace;
      if j < |s.works| {
        assert OnePlace(s, j);
      }
    }
  }

  /** A clean run meets every guard of every job. */
  lemma {:induction false} CleanRunsKeep(config: Config, run: seq<Event>)
    requires CleanRun(config, run)
    ensures AllInStep(After(config, run)) && DistinctIds(After(config, run).works)
    ensures forall j: nat :: KeepingRun(config, run, j)
    ensures forall j: nat :: FreshRun(config, run, j)
  {
    if run != [] {
      var before, e := run[..|run| - 1], run[|run| - 1];
      var s := After(config, before);
      CleanRunsKeep(config, before);
      RunKeeps(config, before);
      RunAccepted(config, before);
      RunApiece(config, before);
      hide Inv, Accepted, Apiece, AllInStep, DistinctIds, Keeps, Fresh, Clean, Step;
      if Enabled(s, e) {
        StepInStep(config, s, e);
        forall j: nat
          ensures Keeps(config, s, e, j) && Fresh(s, e, j)
        {
          CleanKeeps(config, s, e, j);
          CleanFresh(config, s, e, j);
        }
      }
      forall j: nat
        ensures KeepingRun(config, run, j) && FreshRun(config, run, j)
      {
        assert KeepingRun(config, before, j) && FreshRun(config, before, j);
      }
    }
  }

  /** In a clean run every accepted execution is always in exactly one place, and gets at most maxRetries + 1 attempts. */
  lemma {:induction false} CleanRunsConserve(config: Config, run: seq<Event>, j: nat)
    requires CleanRun(config, run)
    ensures AlwaysOnePlace(config, run, j)
    ensures
      var s := After(config, run);
      j < |s.works| ==> |Starts(s.log, j)| <= Budget(s.works[j]) + 1
  {
    CleanRunsKeep(config, run);
    Conservation(config, run, j);
    OnceRetriedBound(config, run, j);
  }

  /** In a clean run an execution has at most one terminal event, and once it has ended it is nowhere else. */
  lemma {:induction false} CleanRunsEndOnce(config: Config, run: seq<Event>, j: nat, i: nat)
    requires CleanRun(config, run)
    ensures
      var s := After(config, run);
      At(s, j, InLog(i)) ==> forall p: Place :: At(s, j, p) ==> p == InLog(i)
  {
    CleanRunsKeep(config, run);
    RunApiece(config, run);
    hide After;
    assert AtMostOne(After(config, run), j);
  }
}
