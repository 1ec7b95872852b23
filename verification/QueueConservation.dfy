/**
 When accepted executions are conserved. The queue can bring an execution to two places at
 once, and it can lose one. Both are decided by guards that can be read off the state before
 an event: an execution is in exactly one place throughout a run if and only if every event
 of the run meets its guard for that execution, whatever happens to others.
 */
module QueueConservation {
  import opened QueueModel
  import opened QueueInvariant
  import opened QueuePlaces

  ghost predicate AtMostOne(s: State, j: nat) {
    forall p: Place, q: Place {:trigger At(s, j, p), At(s, j, q)} :: At(s, j, p) && At(s, j, q) ==> p == q
  }

  ghost predicate Somewhere(s: State, j: nat) {
    exists p: Place :: At(s, j, p)
  }

  ghost predicate OnePlace(s: State, j: nat) {
    AtMostOne(s, j) && Somewhere(s, j)
  }

  /** Only accepted executions are anywhere. */
  ghost predicate Accepted(s: State) {
    forall j: nat, p: Place {:trigger At(s, j, p)} :: At(s, j, p) ==> j < |s.works|
  }

  // ---------------------------------------------------------------------------------
  // The guards

  /** The slot of this execution id is held for job j. */
  predicate SlotIsFor(s: State, id: string, j: nat) {
    id in s.running && s.running[id] in s.attempts && s.attempts[s.running[id]].entry.job == j
  }

  /** The attempt still owes an outcome, or its job, by this or a later try, has the slot that the event frees. */
  predicate MaySettle(s: State, a: Attempt) {
    Finishing(a) || SlotIsFor(s, a.entry.work.executionId, a.entry.job)
  }

  /** The event brings its job to no second place. */
  predicate Singles(s: State, e: Event)
    requires Enabled(s, e)
  {
    match e
    case CallResolved(t) => MaySettle(s, s.attempts[t])
    case TimerFired(t) => MaySettle(s, s.attempts[t])
    case Rejected(t, _, _, _) => MaySettle(s, s.attempts[t]) && (Retries(s, e) ==> !Owes(s.attempts[t], ByTimer))
    case SuccessWritten(t) => !Owes(s.attempts[t], ByTimer)
    case TimeoutHandled(t, _, _) => Retries(s, e) ==> !Owes(s.attempts[t], ByPromise)
    case FailedWriteDone(t, route, ok) => ok ==> !Owes(s.attempts[t], Other(route))
    case _ => true
  }

  /** The drain takes the head off the queue. */
  predicate Takes(config: Config, s: State) {
    |s.running| < config.maxConcurrent && s.queue != []
  }

  /** A drain would start the head over a slot that is held for job j. */
  predicate Overwrites(config: Config, s: State, now: int, j: nat) {
    Takes(config, s) && s.queue[0].scheduledAt <= now && SlotIsFor(s, s.queue[0].work.executionId, j)
  }

  /** A settling attempt frees the slot of job j only if it is an attempt of job j. */
  predicate FreesOwn(s: State, a: Attempt, j: nat) {
    SlotIsFor(s, a.entry.work.executionId, j) ==> a.entry.job == j
  }

  /** The event does not lose job j. */
  predicate Spares(config: Config, s: State, e: Event, j: nat)
    requires Enabled(s, e)
  {
    match e
    case Enqueue(work, at, now) => !Overwrites(config, Insert(s, work, at), now, j)
    case DrainTick(now) => !Overwrites(config, s, now, j)
    case Wake(entry, now) => !Overwrites(config, Unpark(s, entry), now, j)
    case CallResolved(t) => FreesOwn(s, s.attempts[t], j)
    case TimerFired(t) => FreesOwn(s, s.attempts[t], j)
    case Rejected(t, _, _, _) => FreesOwn(s, s.attempts[t], j)
    case FailedWriteDone(t, route, ok) => s.attempts[t].entry.job == j ==> ok || Owes(s.attempts[t], Other(route))
    case CancelWriteDone(k, ok) => s.cancels[k].job == j ==> ok
    case _ => true
  }

  /** The event keeps job j in exactly one place. */
  predicate Keeps(config: Config, s: State, e: Event, j: nat)
    requires Enabled(s, e)
  {
    (!Schedules(e) && Mover(s, e) == j ==> Singles(s, e)) && Spares(config, s, e, j)
  }

  predicate OfAttempt(e: Event) {
    e.CallResolved? || e.TimerFired? || e.Rejected?
  }

  /** The event brings job j to no second place, which a job that is nowhere cannot come to. */
  ghost predicate Apart(s: State, e: Event, j: nat)
    requires Enabled(s, e)
  {
    !Schedules(e) && Mover(s, e) == j ==> Singles(s, e) || (OfAttempt(e) && !Somewhere(s, j))
  }

  // ---------------------------------------------------------------------------------
  // From moves to guards

  ghost predicate NoClash(s: State, gone: set<Place>, j: nat, come: set<Place>) {
    && (forall p, q | p in come && q in come :: p == q)
    && (come != {} ==> forall p | At(s, j, p) :: p in gone || p in come)
  }

  ghost predicate NoLoss(s: State, gone: set<Place>, mover: nat, come: set<Place>, j: nat) {
    forall p | At(s, j, p) && p in gone :: mover == j && come != {}
  }

  lemma MostExactly(s: State, s': State, gone: set<Place>, mover: nat, come: set<Place>, j: nat)
    requires Turns(s, s', gone, mover, come) && AtMostOne(s, j)
    ensures AtMostOne(s', j) <==> (mover == j ==> NoClash(s, gone, j, come))
  {
    if mover == j && !NoClash(s, gone, j, come) {
      if p, q :| p in come && q in come && p != q {
        assert At(s', j, p) && At(s', j, q);
      } else {
        var p :| At(s, j, p) && p !in gone && p !in come;
        var q :| q in come;
        assert At(s', j, p) && At(s', j, q);
      }
    }
  }

  lemma LeastExactly(s: State, s': State, gone: set<Place>, mover: nat, come: set<Place>, j: nat)
    requires Turns(s, s', gone, mover, come) && OnePlace(s, j)
    ensures Somewhere(s', j) <==> NoLoss(s, gone, mover, come, j)
  {
    var p :| At(s, j, p);
    if NoLoss(s, gone, mover, come, j) {
      if p in gone {
        var q :| q in come;
        assert At(s', j, q);
      } else {
        assert At(s', j, p);
      }
    }
  }

  lemma ClashGuard(s: State, e: Event)
    requires Filed(s) && Enabled(s, e) && !Schedules(e) && AtMostOne(s, Mover(s, e))
    ensures NoClash(s, Gone(s, e), Mover(s, e), Come(s, e)) <==> Apart(s, e, Mover(s, e))
  {
    var j, come := Mover(s, e), Come(s, e);
    match e
    case CallResolved(t) => SettleGuard(s, e);
    case TimerFired(t) => SettleGuard(s, e);
    case Rejected(t, _, _, _) => SettleGuard(s, e);
    case SuccessWritten(t) =>
      assert At(s, j, InTransition(t)) && InLog(|s.log|) in come;
      assert !Singles(s, e) ==> InTransition(t) in come;
    case TimeoutHandled(t, _, _) =>
      assert At(s, j, InTransition(t));
      assert Retries(s, e) ==> InQueue(|s.issued|) in come;
      assert !Singles(s, e) ==> InTransition(t) in come;
    case FailedWriteDone(t, _, ok) =>
      assert At(s, j, InTransition(t));
      assert ok ==> InLog(|s.log|) in come;
      assert !Singles(s, e) ==> InTransition(t) in come;
    case CancelRequested(id) => CancelGuard(s, e);
    case RunningWritten(_) =>
    case RunCancelled(k) => assert At(s, j, InCancel(k));
    case CancelWriteDone(k, _) => assert At(s, j, InCancel(k));
  }

  /** The execution that a cancellation finds is in the queue or in the slot that it is taken from. */
  lemma CancelGuard(s: State, e: Event)
    requires Filed(s) && e.CancelRequested? && AtMostOne(s, Mover(s, e))
    ensures NoClash(s, Gone(s, e), Mover(s, e), Come(s, e))
  {
    var id := e.executionId;
    var i := FindExecution(s.queue, id);
    if i >= 0 {
      assert Known(s, s.queue[i]);
      assert At(s, Mover(s, e), InQueue(s.queue[i].ticket));
    } else if id in s.running {
      var h := s.running[id];
      assert s.attempts[h].entry.ticket == h;
      assert At(s, Mover(s, e), InSlot(h));
    }
  }

  /** Where the job of a settling attempt is, if it is anywhere. */
  lemma SettleGuard(s: State, e: Event)
    requires Filed(s) && Enabled(s, e) && OfAttempt(e) && AtMostOne(s, Mover(s, e))
    ensures NoClash(s, Gone(s, e), Mover(s, e), Come(s, e)) <==> Apart(s, e, Mover(s, e))
  {
    var a, j, come := s.attempts[e.t], Mover(s, e), Come(s, e);
    var id := a.entry.work.executionId;
    assert come != {} by {
      assert InTransition(e.t) in come || InQueue(|s.issued|) in come;
    }
    if Finishing(a) {
      assert At(s, j, InTransition(e.t));
      assert e.Rejected? && Retries(s, e) && Owes(a, ByTimer) ==> InQueue(|s.issued|) in come && InTransition(e.t) in come;
    } else if SlotIsFor(s, id, j) {
      assert s.attempts[s.running[id]].entry.ticket == s.running[id];
      assert At(s, j, InSlot(s.running[id]));
    } else {
      assert !At(s, j, InTransition(e.t));
      assert id in s.running ==> !At(s, j, InSlot(s.running[id]));
      NewIsNowhere(s, j);
    }
  }

  lemma NewIsNowhere(s: State, j: nat)
    ensures !At(s, j, InQueue(|s.issued|)) && !At(s, j, InLog(|s.log|)) && !At(s, j, InCancel(|s.cancels|))
  {
  }

  lemma LossGuard(config: Config, s: State, e: Event, j: nat)
    requires Filed(s) && Enabled(s, e) && !Schedules(e)
    ensures NoLoss(s, Gone(s, e), Mover(s, e), Come(s, e), j) <==> Spares(config, s, e, j)
  {
    var come := Come(s, e);
    match e
    case CallResolved(t) => FreeGuard(s, e, j);
    case TimerFired(t) => FreeGuard(s, e, j);
    case Rejected(t, _, _, _) => FreeGuard(s, e, j);
    case SuccessWritten(t) => assert InLog(|s.log|) in come;
    case TimeoutHandled(t, _, _) => assert InQueue(|s.issued|) in come || InTransition(t) in come;
    case FailedWriteDone(t, route, ok) =>
      assert At(s, Mover(s, e), InTransition(t));
      assert ok ==> InLog(|s.log|) in come;
      assert Owes(s.attempts[t], Other(route)) ==> InTransition(t) in come;
    case CancelRequested(id) => assert InCancel(|s.cancels|) in come || come == {};
    case RunningWritten(_) =>
    case RunCancelled(k) => assert InCancel(k) in come;
    case CancelWriteDone(k, ok) =>
      assert At(s, Mover(s, e), InCancel(k));
      assert ok ==> InLog(|s.log|) in come;
  }

  lemma FreeGuard(s: State, e: Event, j: nat)
    requires Filed(s) && Enabled(s, e) && OfAttempt(e)
    ensures NoLoss(s, Gone(s, e), Mover(s, e), Come(s, e), j) <==> FreesOwn(s, s.attempts[e.t], j)
  {
    var come := Come(s, e);
    var id := s.attempts[e.t].entry.work.executionId;
    assert come != {} by {
      assert InTransition(e.t) in come || InQueue(|s.issued|) in come;
    }
    if id in s.running {
      var h := s.running[id];
      assert s.attempts[h].entry.ticket == h;
      assert At(s, s.attempts[h].entry.job, InSlot(h)) && InSlot(h) in Gone(s, e);
    }
  }

  // ---------------------------------------------------------------------------------
  // Draining the queue

  function DrainGone(config: Config, s: State, now: int): set<Place> {
    if !Takes(config, s) then {}
    else {InQueue(s.queue[0].ticket)} + if s.queue[0].scheduledAt > now then {} else SlotAt(s, s.queue[0].work.executionId)
  }

  function DrainCome(config: Config, s: State, now: int): set<Place> {
    if !Takes(config, s) then {}
    else if s.queue[0].scheduledAt > now then {InPark(s.queue[0].ticket)}
    else {InSlot(s.queue[0].ticket)}
  }

  function HeadJob(s: State): nat {
    if s.queue == [] then 0 else s.queue[0].job
  }

  lemma PopFiled(s: State)
    requires Filed(s) && s.queue != []
    ensures var mid := s.(queue := s.queue[1..]);
      Filed(mid) && Known(mid, s.queue[0])
  {
    assert s.queue[0] in s.queue;
    forall e | e in s.queue[1..]
      ensures Known(s, e)
    {
      assert e in s.queue;
    }
  }

  lemma PopTurns(s: State)
    requires Filed(s) && s.queue != []
    ensures Turns(s, s.(queue := s.queue[1..]), {InQueue(s.queue[0].ticket)}, s.queue[0].job, {})
  {
    assert RemoveAt(s.queue, 0) == s.queue[1..];
    hide Turns, Filed;
    RemoveTurns(s, 0, s.queue[0].job);
  }

  lemma TicksTurn(s: State, drains: nat, j: nat)
    ensures Turns(s, s.(drains := drains), {}, j, {})
  {
  }

  lemma ParkHeadTurns(s: State)
    requires Filed(s) && s.queue != []
    ensures var e := s.queue[0];
      Turns(s, s.(queue := s.queue[1..], parked := s.parked + {e}), {InQueue(e.ticket)}, e.job, {InPark(e.ticket)})
  {
    var e := s.queue[0];
    var mid := s.(queue := s.queue[1..]);
    PopFiled(s);
    PopTurns(s);
    ParkTurns(mid, e);
    hide Filed, Turns;
    TurnTwice(s, mid, mid.(parked := mid.parked + {e}), {InQueue(e.ticket)}, {}, {}, {InPark(e.ticket)}, e.job);
    assert {InQueue(e.ticket)} + {} == {InQueue(e.ticket)} && {} - {} + {InPark(e.ticket)} == {InPark(e.ticket)};
  }

  lemma StartHeadTurns(s: State, now: int, drains: nat)
    requires Filed(s) && s.queue != [] && s.queue[0].ticket !in s.attempts
    ensures var e := s.queue[0];
      Turns(s, Start(s.(queue := s.queue[1..]), e, now).(drains := drains),
            {InQueue(e.ticket)} + SlotAt(s, e.work.executionId), e.job, {InSlot(e.ticket)})
  {
    var e := s.queue[0];
    var mid := s.(queue := s.queue[1..]);
    var started := Start(mid, e, now);
    var gone := {InQueue(e.ticket)} + SlotAt(s, e.work.executionId);
    PopFiled(s);
    PopTurns(s);
    StartTurns(mid, e, now);
    TicksTurn(started, drains, e.job);
    hide Filed, Turns;
    TurnTwice(s, mid, started, {InQueue(e.ticket)}, {}, SlotAt(s, e.work.executionId), {InSlot(e.ticket)}, e.job);
    assert {} - SlotAt(s, e.work.executionId) + {InSlot(e.ticket)} == {InSlot(e.ticket)};
    TurnTwice(s, started, started.(drains := drains), gone, {InSlot(e.ticket)}, {}, {}, e.job);
    assert gone + {} == gone && {InSlot(e.ticket)} - {} + {} == {InSlot(e.ticket)};
  }

  lemma ParkCase(config: Config, s: State, now: int)
    requires Takes(config, s) && s.queue[0].scheduledAt > now
    ensures var e := s.queue[0];
      && Drain(config, s, now) == s.(queue := s.queue[1..], parked := s.parked + {e})
      && DrainGone(config, s, now) == {InQueue(e.ticket)} && DrainCome(config, s, now) == {InPark(e.ticket)}
      && HeadJob(s) == e.job
  {
  }

  lemma StartCase(config: Config, s: State, now: int)
    requires Takes(config, s) && s.queue[0].scheduledAt <= now
    ensures var e := s.queue[0];
      && Drain(config, s, now) == Start(s.(queue := s.queue[1..]), e, now).(drains := s.drains + 1)
      && DrainGone(config, s, now) == {InQueue(e.ticket)} + SlotAt(s, e.work.executionId)
      && DrainCome(config, s, now) == {InSlot(e.ticket)}
      && HeadJob(s) == e.job
  {
  }

  lemma DrainTurns(config: Config, s: State, now: int)
    requires Filed(s) && (s.queue != [] ==> s.queue[0].ticket !in s.attempts)
    ensures Turns(s, Drain(config, s, now), DrainGone(config, s, now), HeadJob(s), DrainCome(config, s, now))
  {
    if !Takes(config, s) {
      TicksTurn(s, s.drains, HeadJob(s));
      assert Drain(config, s, now) == s.(drains := s.drains);
      return;
    }
    hide *;
    if s.queue[0].scheduledAt > now {
      ParkHeadTurns(s);
      ParkCase(config, s, now);
    } else {
      StartHeadTurns(s, now, s.drains + 1);
      StartCase(config, s, now);
    }
  }

  lemma HeadQueued(s: State)
    requires Filed(s) && s.queue != []
    ensures At(s, HeadJob(s), InQueue(s.queue[0].ticket))
  {
    assert Known(s, s.queue[0]);
  }

  lemma DrainClash(config: Config, s: State, now: int)
    requires Filed(s) && AtMostOne(s, HeadJob(s))
    ensures NoClash(s, DrainGone(config, s, now), HeadJob(s), DrainCome(config, s, now))
  {
    hide Filed, At, SlotAt;
    if Takes(config, s) {
      HeadQueued(s);
      assert InQueue(s.queue[0].ticket) in DrainGone(config, s, now);
    }
  }

  /** Only the head leaves its place, and whoever held the slot that it is started over. */
  lemma DrainLoss(config: Config, s: State, now: int, j: nat)
    requires Filed(s) && AtMostOne(s, j)
    ensures
      NoLoss(s, DrainGone(config, s, now), HeadJob(s), DrainCome(config, s, now), j)
      <==> !Overwrites(config, s, now, j)
  {
    if Takes(config, s) {
      var e := s.queue[0];
      assert Known(s, e) && At(s, e.job, InQueue(e.ticket));
      if Overwrites(config, s, now, j) {
        var h := s.running[e.work.executionId];
        assert s.attempts[h].entry.ticket == h;
        assert At(s, j, InSlot(h)) && InSlot(h) in DrainGone(config, s, now);
      }
    }
  }

  lemma AcceptedTurns(s: State, s': State, gone: set<Place>, mover: nat, come: set<Place>)
    requires Turns(s, s', gone, mover, come) && Accepted(s)
    requires |s.works| <= |s'.works| && (come != {} ==> mover < |s'.works|)
    ensures Accepted(s')
  {
    forall i: nat, p: Place | At(s', i, p)
      ensures i < |s'.works|
    {
      assert At(s, i, p) || (i == mover && p in come);
    }
  }

  /** The job stays as single as it was. */
  ghost predicate Stays(s: State, s': State, j: nat) {
    (AtMostOne(s, j) ==> AtMostOne(s', j)) && (OnePlace(s, j) ==> OnePlace(s', j))
  }

  lemma DrainExactly(config: Config, s: State, now: int, j: nat)
    requires Inv(config, s)
    ensures var s' := Drain(config, s, now);
      && (Accepted(s) ==> Accepted(s'))
      && (AtMostOne(s, j) ==> AtMostOne(s', j))
      && (OnePlace(s, j) ==> (Somewhere(s', j) <==> !Overwrites(config, s, now, j)))
  {
    var s' := Drain(config, s, now);
    var gone, come := DrainGone(config, s, now), DrainCome(config, s, now);
    InvFiled(config, s);
    HeadFresh(config, s);
    DrainTurns(config, s, now);
    hide Inv, Filed, Turns, NoClash, NoLoss, Drain, SlotIsFor, AtMostOne, Accepted;
    if Accepted(s) {
      AcceptedTurns(s, s', gone, HeadJob(s), come);
    }
    if AtMostOne(s, j) {
      MostExactly(s, s', gone, HeadJob(s), come, j);
      if HeadJob(s) == j {
        DrainClash(config, s, now);
      }
      if Somewhere(s, j) {
        DrainLoss(config, s, now, j);
        LeastExactly(s, s', gone, HeadJob(s), come, j);
      }
    }
  }

  // ---------------------------------------------------------------------------------
  // Before a drain

  lemma InsertPlaces(config: Config, s: State, work: Work, at: int, j: nat)
    requires Inv(config, s) && Accepted(s)
    ensures var s' := Insert(s, work, at);
      Accepted(s') && Stays(s, s', j) && (j == |s.works| ==> OnePlace(s', j))
  {
    var s' := Insert(s, work, at);
    var mover, place := |s.works|, InQueue(|s.issued|);
    InvFiled(config, s);
    hide Inv;
    JoinTurns(s, s', InsertIndex(s.queue, work.priority), s'.issued[|s.issued|]);
    AcceptedTurns(s, s', {}, mover, {place});
    hide Insert, At, Filed;
    assert At(s', mover, place);
    if Somewhere(s, j) {
      var p :| At(s, j, p);
      assert At(s', j, p);
    }
  }

  lemma UnparkPlaces(config: Config, s: State, e: Entry, j: nat)
    requires Inv(config, s) && Accepted(s) && e in s.parked
    ensures Accepted(Unpark(s, e)) && Stays(s, Unpark(s, e), j)
  {
    var s' := Unpark(s, e);
    var gone, come := {InPark(e.ticket)}, {InQueue(e.ticket)};
    InvFiled(config, s);
    assert At(s, e.job, InPark(e.ticket));
    UnparkTurns(s, e);
    AcceptedTurns(s, s', gone, e.job, come);
    hide Inv, Filed, At, Unpark;
    if AtMostOne(s, j) {
      MostExactly(s, s', gone, e.job, come, j);
    }
    if OnePlace(s, j) {
      LeastExactly(s, s', gone, e.job, come, j);
    }
  }

  lemma TickPlaces(s: State, j: nat)
    requires Accepted(s) && s.drains > 0
    ensures var s' := s.(drains := s.drains - 1);
      Accepted(s') && Stays(s, s', j)
  {
    var s' := s.(drains := s.drains - 1);
    TicksTurn(s, s.drains - 1, 0);
    AcceptedTurns(s, s', {}, 0, {});
    if AtMostOne(s, j) {
      MostExactly(s, s', {}, 0, {}, j);
    }
    if OnePlace(s, j) {
      LeastExactly(s, s', {}, 0, {}, j);
    }
  }

  // ---------------------------------------------------------------------------------
  // One event

  lemma TickOverwrites(config: Config, s: State, now: int, j: nat)
    requires s.drains > 0
    ensures Overwrites(config, s.(drains := s.drains - 1), now, j) == Overwrites(config, s, now, j)
  {
  }

  /** What an event that drains the queue does to job j, old or new. */
  lemma ScheduleExactly(config: Config, s: State, e: Event, j: nat)
    requires Inv(config, s) && Accepted(s) && Enabled(s, e) && Schedules(e)
    ensures var s' := Step(config, s, e);
      && Accepted(s')
      && (AtMostOne(s, j) ==> AtMostOne(s', j))
      && (OnePlace(s, j) || (e.Enqueue? && j == |s.works|) ==> (OnePlace(s', j) <==> Spares(config, s, e, j)))
  {
    hide Inv, AtMostOne, Somewhere, Accepted, Overwrites, Drain;
    match e
    case Enqueue(work, at, now) =>
      InsertPlaces(config, s, work, at, j);
      InsertKeeps(config, s, work, at);
      DrainExactly(config, Insert(s, work, at), now, j);
    case DrainTick(now) =>
      TickPlaces(s, j);
      OthersKeep(config, s, s.drains - 1, s.cancels);
      DrainExactly(config, s.(drains := s.drains - 1), now, j);
      TickOverwrites(config, s, now, j);
    case Wake(entry, now) =>
      UnparkPlaces(config, s, entry, j);
      UnparkKeeps(config, s, entry);
      DrainExactly(config, Unpark(s, entry), now, j);
  }

  lemma MoverAccepted(config: Config, s: State, e: Event)
    requires Inv(config, s) && Accepted(s) && Enabled(s, e) && !Schedules(e)
    ensures Come(s, e) != {} ==> Mover(s, e) < |s.works|
    ensures !e.CancelRequested? ==> Mover(s, e) < |s.works|
  {
    if e.CancelRequested? {
      var i := FindExecution(s.queue, e.executionId);
      if i >= 0 {
        assert Known(s, s.queue[i]) && WellBorn(s, s.queue[i].ticket);
      } else if e.executionId in s.running {
        assert WellBorn(s, s.running[e.executionId]);
      }
    } else if e.RunCancelled? || e.CancelWriteDone? {
      assert At(s, s.cancels[e.k].job, InCancel(e.k));
    } else {
      assert WellBorn(s, e.t);
    }
  }

  lemma SettleWorks(config: Config, s: State, e: Event)
    requires Enabled(s, e) && !Schedules(e)
    ensures Step(config, s, e).works == s.works
  {
  }

  /** What any other event does to job j. */
  lemma SettleExactly(config: Config, s: State, e: Event, j: nat)
    requires Inv(config, s) && Accepted(s) && Enabled(s, e) && !Schedules(e)
    ensures var s' := Step(config, s, e);
      && Accepted(s')
      && (AtMostOne(s, j) ==> (AtMostOne(s', j) <==> Apart(s, e, j)))
      && (OnePlace(s, j) ==> (Somewhere(s', j) <==> Spares(config, s, e, j)))
  {
    var s' := Step(config, s, e);
    var gone, mover, come := Gone(s, e), Mover(s, e), Come(s, e);
    InvFiled(config, s);
    MoverAccepted(config, s, e);
    StepTurns(config, s, e);
    LossGuard(config, s, e, j);
    SettleWorks(config, s, e);
    hide Inv, Step, Gone, Mover, Come, Singles, Spares, Filed, Turns, NoClash, NoLoss, AtMostOne, Accepted;
    AcceptedTurns(s, s', gone, mover, come);
    if AtMostOne(s, j) {
      MostExactly(s, s', gone, mover, come, j);
      if mover == j {
        ClashGuard(s, e);
      }
      if Somewhere(s, j) {
        LeastExactly(s, s', gone, mover, come, j);
      }
    }
  }

  /**
   One event, from any state in which job j is not in two places: it is brought to a second
   place exactly if the event is not apart, and if it was somewhere, it is lost exactly if the
   event does not spare it.
   */
  lemma StepExactly(config: Config, s: State, e: Event, j: nat)
    requires Inv(config, s) && Accepted(s) && Enabled(s, e) && AtMostOne(s, j)
    ensures var s' := Step(config, s, e);
      && (AtMostOne(s', j) <==> Apart(s, e, j))
      && (Somewhere(s, j) ==> (Somewhere(s', j) <==> Spares(config, s, e, j)))
  {
    hide Inv, AtMostOne, Accepted, Step, Spares;
    if Schedules(e) {
      ScheduleExactly(config, s, e, j);
    } else {
      SettleExactly(config, s, e, j);
    }
  }

  /** An event keeps a job in exactly one place exactly if its guard for this job holds. */
  lemma StepConserves(config: Config, s: State, e: Event, j: nat)
    requires Inv(config, s) && Accepted(s) && Enabled(s, e) && OnePlace(s, j)
    ensures OnePlace(Step(config, s, e), j) <==> Keeps(config, s, e, j)
  {
    hide Inv, AtMostOne, Somewhere, Accepted, Step, Spares;
    StepExactly(config, s, e, j);
  }

  lemma StepAccepted(config: Config, s: State, e: Event)
    requires Inv(config, s) && Accepted(s) && Enabled(s, e)
    ensures Accepted(Step(config, s, e))
  {
    hide Inv, AtMostOne, Accepted, Step, Spares;
    if Schedules(e) {
      ScheduleExactly(config, s, e, 0);
    } else {
      SettleExactly(config, s, e, 0);
    }
  }

  lemma WorksGrow(config: Config, s: State, e: Event)
    requires Enabled(s, e)
    ensures var s' := Step(config, s, e);
      s'.works == if e.Enqueue? then s.works + [e.work] else s.works
  {
  }

  lemma SlotJobs(config: Config, s: State, j: nat)
    requires Inv(config, s) && j >= |s.works|
    ensures forall id :: !SlotIsFor(s, id, j)
  {
    forall id
      ensures !SlotIsFor(s, id, j)
    {
      if id in s.running {
        assert WellBorn(s, s.running[id]);
      }
    }
  }

  lemma YoungSpares(config: Config, s: State, e: Event, j: nat)
    requires Inv(config, s) && Accepted(s) && Enabled(s, e) && j >= |s.works|
    ensures Spares(config, s, e, j)
  {
    SlotJobs(config, s, j);
    if e.Enqueue? {
      assert forall id :: SlotIsFor(Insert(s, e.work, e.at), id, j) == SlotIsFor(s, id, j);
    } else if e.Wake? {
      assert forall id :: SlotIsFor(Unpark(s, e.entry), id, j) == SlotIsFor(s, id, j);
    } else if !e.DrainTick? {
      MoverAccepted(config, s, e);
    }
    hide Inv, Accepted, Insert, Unpark;
  }

  /** No event can harm a job that is not accepted yet, and the event that accepts it gives it its one place. */
  lemma YoungKeeps(config: Config, s: State, e: Event, j: nat)
    requires Inv(config, s) && Accepted(s) && Enabled(s, e) && j >= |s.works|
    ensures Keeps(config, s, e, j) && Apart(s, e, j)
    ensures j < |Step(config, s, e).works| ==> OnePlace(Step(config, s, e), j)
  {
    YoungSpares(config, s, e, j);
    hide Inv, Accepted, Somewhere, AtMostOne, Step, Spares, Singles;
    WorksGrow(config, s, e);
    if Schedules(e) {
      ScheduleExactly(config, s, e, j);
    } else if !e.CancelRequested? {
      MoverAccepted(config, s, e);
    } else {
      CancelSingles(s, e);
    }
  }

  lemma CancelSingles(s: State, e: Event)
    requires e.CancelRequested?
    ensures Singles(s, e)
  {
  }

  // ---------------------------------------------------------------------------------
  // Runs

  /** Every event of the run meets its guard for job j. */
  predicate KeepingRun(config: Config, run: seq<Event>, j: nat) {
    run == []
    || (var s, e := After(config, run[..|run| - 1]), run[|run| - 1];
        KeepingRun(config, run[..|run| - 1], j) && (Enabled(s, e) ==> Keeps(config, s, e, j)))
  }

  ghost predicate ApartRun(config: Config, run: seq<Event>, j: nat) {
    run == []
    || (var s, e := After(config, run[..|run| - 1]), run[|run| - 1];
        ApartRun(config, run[..|run| - 1], j) && (Enabled(s, e) ==> Apart(s, e, j)))
  }

  /** From its acceptance on, job j is always in exactly one place. */
  ghost predicate AlwaysOnePlace(config: Config, run: seq<Event>, j: nat) {
    forall n | 0 <= n <= |run| :: j < |After(config, run[..n]).works| ==> OnePlace(After(config, run[..n]), j)
  }

  ghost predicate NeverTwoPlaces(config: Config, run: seq<Event>, j: nat) {
    forall n | 0 <= n <= |run| :: AtMostOne(After(config, run[..n]), j)
  }

  lemma NowhereAtFirst(j: nat)
    ensures AtMostOne(INITIAL, j) && Accepted(INITIAL)
  {
  }

  lemma SplitRun(config: Config, run: seq<Event>, j: nat)
    requires run != []
    ensures var before, s := run[..|run| - 1], After(config, run);
      && (NeverTwoPlaces(config, run, j) <==> NeverTwoPlaces(config, before, j) && AtMostOne(s, j))
      && (AlwaysOnePlace(config, run, j) <==> AlwaysOnePlace(config, before, j) && (j < |s.works| ==> OnePlace(s, j)))
  {
    hide After, AtMostOne, OnePlace;
    var before := run[..|run| - 1];
    assert run[..|run|] == run;
    forall n | 0 <= n <= |before|
      ensures After(config, before[..n]) == After(config, run[..n])
    {
      assert before[..n] == run[..n];
    }
  }

  lemma {:induction false} RunAccepted(config: Config, run: seq<Event>)
    ensures Accepted(After(config, run))
  {
    if run == [] {
      NowhereAtFirst(0);
    } else {
      var before, e := run[..|run| - 1], run[|run| - 1];
      RunAccepted(config, before);
      RunKeeps(config, before);
      if Enabled(After(config, before), e) {
        StepAccepted(config, After(config, before), e);
      }
    }
  }

  // ---------------------------------------------------------------------------------
  // The theorems

  /** A job is never in two places exactly if every event of the run is apart for it. */
  lemma {:induction false} Separation(config: Config, run: seq<Event>, j: nat)
    ensures NeverTwoPlaces(config, run, j) <==> ApartRun(config, run, j)
  {
    if run == [] {
      NowhereAtFirst(j);
    } else {
      var before, e := run[..|run| - 1], run[|run| - 1];
      var s := After(config, before);
      SplitRun(config, run, j);
      Separation(config, before, j);
      RunAccepted(config, before);
      RunKeeps(config, before);
      assert before[..|before|] == before;
      if NeverTwoPlaces(config, before, j) && Enabled(s, e) {
        StepExactly(config, s, e, j);
      }
    }
  }

  /** A job is in exactly one place from its acceptance on exactly if every event of the run meets its guard for it. */
  lemma {:induction false} Conservation(config: Config, run: seq<Event>, j: nat)
    ensures AlwaysOnePlace(config, run, j) <==> KeepingRun(config, run, j)
  {
    if run == [] {
    } else {
      var before, e := run[..|run| - 1], run[|run| - 1];
      var s := After(config, before);
      SplitRun(config, run, j);
      Conservation(config, before, j);
      RunAccepted(config, before);
      RunKeeps(config, before);
      assert before[..|before|] == before;
      if AlwaysOnePlace(config, before, j) && Enabled(s, e) {
        StepKeepsOne(config, s, e, j);
      }
    }
  }

  lemma StepKeepsOne(config: Config, s: State, e: Event, j: nat)
    requires Inv(config, s) && Accepted(s) && Enabled(s, e) && (j < |s.works| ==> OnePlace(s, j))
    ensures var s' := Step(config, s, e);
      (j < |s'.works| ==> OnePlace(s', j)) <==> Keeps(config, s, e, j)
  {
    hide Inv, Accepted, OnePlace, Step, Keeps;
    WorksGrow(config, s, e);
    if j < |s.works| {
      StepConserves(config, s, e, j);
    } else {
      YoungKeeps(config, s, e, j);
    }
  }

  /** If every event is apart for a job, it has at most one terminal event, and once it has ended it is nowhere else. */
  lemma {:induction false} EndsOnce(config: Config, run: seq<Event>, j: nat, i: nat, k: nat)
    requires ApartRun(config, run, j)
    ensures
      var s := After(config, run);
      At(s, j, InLog(i)) && At(s, j, InLog(k)) ==> i == k
    ensures
      var s := After(config, run);
      At(s, j, InLog(i)) ==> forall p: Place :: At(s, j, p) ==> p == InLog(i)
  {
    Separation(config, run, j);
    assert run[..|run|] == run;
    hide Next;
    assert AtMostOne(After(config, run), j);
  }
}
