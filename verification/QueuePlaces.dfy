/** Where an accepted execution can be, and how each event moves it. */
module QueuePlaces {
  import opened Backoff
  import opened QueueModel
  import opened QueueInvariant

  datatype Place =
    | InQueue(ticket: nat)
    | InPark(ticket: nat)
    | InSlot(ticket: nat)
    | InTransition(ticket: nat)
    | InCancel(call: nat)
    | InLog(index: nat)

  predicate HoldsSlot(s: State, a: Attempt) {
    a.entry.work.executionId in s.running && s.running[a.entry.work.executionId] == a.entry.ticket
  }

  /** This route of the attempt has yet to deliver an outcome. */
  predicate Owes(a: Attempt, route: Route) {
    if route.ByPromise? then a.promise in {WritingSuccess, WritingFailed}
    else a.timer in {CancellingCall, TimerWritingFailed}
  }

  function Other(route: Route): Route {
    if route.ByPromise? then ByTimer else ByPromise
  }

  predicate Finishing(a: Attempt) {
    Owes(a, ByPromise) || Owes(a, ByTimer)
  }

  /** Job j is at place p. */
  ghost predicate At(s: State, j: nat, p: Place) {
    match p
    case InQueue(t) => t < |s.issued| && s.issued[t].job == j && s.issued[t] in s.queue
    case InPark(t) => t < |s.issued| && s.issued[t].job == j && s.issued[t] in s.parked
    case InSlot(t) => t in s.attempts && s.attempts[t].entry.job == j && HoldsSlot(s, s.attempts[t])
    case InTransition(t) => t in s.attempts && s.attempts[t].entry.job == j && Finishing(s.attempts[t])
    case InCancel(k) => k < |s.cancels| && s.cancels[k].job == j && s.cancels[k].phase != CancelDone
    case InLog(i) => i < |s.log| && s.log[i].Terminal() && s.log[i].JobOf() == j
  }

  /** From s to s' the places `gone` are left by whoever was there, and job j comes to the places `come`. */
  ghost predicate Turns(s: State, s': State, gone: set<Place>, j: nat, come: set<Place>) {
    forall i: nat, q: Place {:trigger At(s', i, q)} ::
      At(s', i, q) <==> (At(s, i, q) && q !in gone) || (i == j && q in come)
  }

  lemma TurnTwice(s: State, mid: State, s': State, gone: set<Place>, come: set<Place>,
                  gone': set<Place>, come': set<Place>, j: nat)
    requires Turns(s, mid, gone, j, come) && Turns(mid, s', gone', j, come')
    ensures Turns(s, s', gone + gone', j, (come - gone') + come')
  {
    forall i: nat, q: Place
      ensures At(s', i, q) <==> (At(s, i, q) && q !in gone + gone') || (i == j && q in (come - gone') + come')
    {
      assert At(mid, i, q) <==> (At(s, i, q) && q !in gone) || (i == j && q in come);
    }
  }

  // ---------------------------------------------------------------------------------
  // Moves of one kind

  /** Every object is filed under its own ticket. */
  ghost predicate Filed(s: State) {
    && (forall t | 0 <= t < |s.issued| :: s.issued[t].ticket == t)
    && (forall e | e in s.queue :: Known(s, e))
    && (forall e | e in s.parked :: Known(s, e))
    && (forall t | t in s.attempts :: t < |s.issued| && s.attempts[t].entry == s.issued[t])
    && (forall i, j | 0 <= i < j < |s.queue| :: s.queue[i].ticket != s.queue[j].ticket)
    && (forall id | id in s.running ::
          s.running[id] in s.attempts && s.attempts[s.running[id]].entry.work.executionId == id)
  }

  lemma InvFiled(config: Config, s: State)
    requires Inv(config, s)
    ensures Filed(s)
  {
    forall t | 0 <= t < |s.issued|
      ensures s.issued[t].ticket == t
    {
      assert WellBorn(s, t);
    }
  }

  /** A new object joins the queue. */
  lemma JoinTurns(s: State, s': State, i: nat, e: Entry)
    requires Filed(s) && e.ticket == |s.issued| && i <= |s.queue|
    requires s'.issued == s.issued + [e] && s'.queue == InsertAt(s.queue, i, e) && s'.parked == s.parked
    requires s'.attempts == s.attempts && s'.running == s.running && s'.cancels == s.cancels
    requires |s'.log| == |s.log| + 1 && s'.log[..|s.log|] == s.log && !s'.log[|s.log|].Terminal()
    ensures Turns(s, s', {}, e.job, {InQueue(e.ticket)})
  {
    forall f: Entry
      ensures f in s'.queue <==> f in s.queue || f == e
    {
      assert s.queue == s.queue[..i] + s.queue[i..];
    }
    assert forall t | 0 <= t < |s.issued| :: s'.issued[t] == s.issued[t];
    forall k | 0 <= k < |s.log|
      ensures s'.log[k] == s.log[k]
    {
      assert s'.log[..|s.log|][k] == s.log[k];
    }
  }

  /** Taking an entry out of the queue removes its object and no other. */
  lemma RemoveTurns(s: State, i: nat, j: nat)
    requires Filed(s) && i < |s.queue|
    ensures Turns(s, s.(queue := RemoveAt(s.queue, i)), {InQueue(s.queue[i].ticket)}, j, {})
  {
    var rest := RemoveAt(s.queue, i);
    forall t | 0 <= t < |s.issued|
      ensures s.issued[t] in rest <==> s.issued[t] in s.queue && t != s.queue[i].ticket
    {
      RestMember(s.queue, i, s.issued[t]);
    }
  }

  lemma RestMember(queue: seq<Entry>, i: nat, e: Entry)
    requires i < |queue|
    requires forall k, l | 0 <= k < l < |queue| :: queue[k].ticket != queue[l].ticket
    ensures e in RemoveAt(queue, i) <==> e in queue && e.ticket != queue[i].ticket
  {
    var rest := RemoveAt(queue, i);
    if e in queue && e.ticket != queue[i].ticket {
      var k :| 0 <= k < |queue| && queue[k] == e;
      assert rest[if k < i then k else k - 1] == e;
    }
    if e in rest {
      var k :| 0 <= k < |rest| && rest[k] == e;
      assert queue[if k < i then k else k + 1] == e;
    }
  }

  lemma ParkTurns(s: State, e: Entry)
    requires Filed(s) && Known(s, e)
    ensures Turns(s, s.(parked := s.parked + {e}), {}, e.job, {InPark(e.ticket)})
  {
  }

  lemma UnparkTurns(s: State, e: Entry)
    requires Filed(s) && e in s.parked
    ensures Turns(s, Unpark(s, e), {InPark(e.ticket)}, e.job, {InQueue(e.ticket)})
  {
  }

  /** The place of whoever holds the slot of this execution id. */
  function SlotAt(s: State, id: string): set<Place> {
    if id in s.running then {InSlot(s.running[id])} else {}
  }

  lemma SlotTaken(s: State, e: Entry, now: int, t: nat)
    requires Filed(s) && e.ticket !in s.attempts && t in s.attempts
    ensures
      var s' := Start(s, e, now);
      && s'.attempts[t] == s.attempts[t]
      && (HoldsSlot(s', s.attempts[t]) <==> HoldsSlot(s, s.attempts[t]) && InSlot(t) !in SlotAt(s, e.work.executionId))
  {
    assert s.attempts[t].entry.ticket == t;
  }

  /** A start takes the slot of its execution id from whoever held it. */
  lemma StartTurns(s: State, e: Entry, now: int)
    requires Filed(s) && Known(s, e) && e.ticket !in s.attempts
    ensures Turns(s, Start(s, e, now), SlotAt(s, e.work.executionId), e.job, {InSlot(e.ticket)})
  {
    var s' := Start(s, e, now);
    forall t | t in s.attempts
      ensures s'.attempts[t] == s.attempts[t]
      ensures HoldsSlot(s', s.attempts[t]) <==> HoldsSlot(s, s.attempts[t]) && InSlot(t) !in SlotAt(s, e.work.executionId)
    {
      SlotTaken(s, e, now, t);
    }
    assert HoldsSlot(s', s'.attempts[e.ticket]);
    hide HoldsSlot, Finishing;
  }

  /** A slot becomes free; no attempt changes otherwise than by disarming. */
  lemma FreeTurns(s: State, s': State, id: string, j: nat)
    requires Filed(s) && s'.running == s.running - {id} && s'.attempts.Keys == s.attempts.Keys
    requires forall t | t in s.attempts ::
      s'.attempts[t].entry == s.attempts[t].entry && Finishing(s'.attempts[t]) == Finishing(s.attempts[t])
    requires s'.queue == s.queue && s'.parked == s.parked && s'.issued == s.issued
    requires s'.cancels == s.cancels && s'.log == s.log
    ensures Turns(s, s', SlotAt(s, id), j, {})
  {
    forall t | t in s.attempts
      ensures HoldsSlot(s', s'.attempts[t]) <==> HoldsSlot(s, s.attempts[t]) && !(id in s.running && t == s.running[id])
    {
      assert s.attempts[t].entry.ticket == t;
    }
  }

  lemma ReleaseTurns(s: State, id: string, j: nat)
    requires Filed(s)
    ensures Turns(s, ReleaseSlot(s, id), SlotAt(s, id), j, {})
  {
    assert id !in s.running ==> s.running - {id} == s.running;
    FreeTurns(s, ReleaseSlot(s, id), id, j);
  }

  function TransitionOf(t: nat, a: Attempt): set<Place> {
    if Finishing(a) then {InTransition(t)} else {}
  }

  /** One attempt changes phase. */
  lemma PhaseTurns(s: State, t: nat, a: Attempt)
    requires Filed(s) && t in s.attempts && a.entry == s.attempts[t].entry
    ensures Turns(s, s.(attempts := s.attempts[t := a]), {InTransition(t)}, a.entry.job, TransitionOf(t, a))
  {
  }

  lemma RecordTurns(s: State, r: Record)
    requires r.Terminal()
    ensures Turns(s, Append(s, r), {}, r.JobOf(), {InLog(|s.log|)})
  {
  }

  lemma CallTurns(s: State, c: CancelCall)
    requires c.phase != CancelDone
    ensures Turns(s, s.(cancels := s.cancels + [c]), {}, c.job, {InCancel(|s.cancels|)})
  {
  }

  lemma CallPhaseTurns(s: State, k: nat, phase: CancelPhase)
    requires k < |s.cancels|
    ensures
      Turns(s, SetCancel(s, k, phase), {InCancel(k)}, s.cancels[k].job,
            if phase == CancelDone then {} else {InCancel(k)})
  {
  }

  // ---------------------------------------------------------------------------------
  // Moves of one event

  predicate Schedules(e: Event) {
    e.Enqueue? || e.DrainTick? || e.Wake?
  }

  /** The event leaves a new entry behind for the next try of its attempt. */
  predicate Retries(s: State, e: Event) {
    match e
    case Rejected(t, error, _, _) => t in s.attempts && ShouldRetry(s.attempts[t].entry, error)
    case TimeoutHandled(t, _, _) => t in s.attempts && ShouldRetry(s.attempts[t].entry, TIMEOUT_ERROR)
    case _ => false
  }

  /** The attempt t still owes an outcome by this route. */
  function Owing(s: State, t: nat, route: Route): set<Place>
    requires t in s.attempts
  {
    if Owes(s.attempts[t], route) then {InTransition(t)} else {}
  }

  /** The job that the event is about. */
  function Mover(s: State, e: Event): nat
    requires Enabled(s, e) && !Schedules(e)
  {
    if e.CancelRequested? then
      var id, i := e.executionId, FindExecution(s.queue, e.executionId);
      if i >= 0 then s.queue[i].job
      else if id in s.running && s.running[id] in s.attempts then s.attempts[s.running[id]].entry.job
      else 0
    else if e.RunCancelled? || e.CancelWriteDone? then s.cancels[e.k].job
    else s.attempts[e.t].entry.job
  }

  /** The places that the event empties. */
  function Gone(s: State, e: Event): set<Place>
    requires Enabled(s, e) && !Schedules(e)
  {
    match e
    case RunningWritten(_) => {}
    case CallResolved(t) => SlotAt(s, s.attempts[t].entry.work.executionId)
    case TimerFired(t) => SlotAt(s, s.attempts[t].entry.work.executionId)
    case Rejected(t, _, _, _) => SlotAt(s, s.attempts[t].entry.work.executionId) + {InTransition(t)}
    case SuccessWritten(t) => {InTransition(t)}
    case TimeoutHandled(t, _, _) => {InTransition(t)}
    case FailedWriteDone(t, _, _) => {InTransition(t)}
    case CancelRequested(id) =>
      var i := FindExecution(s.queue, id);
      if i >= 0 then {InQueue(s.queue[i].ticket)} else SlotAt(s, id)
    case RunCancelled(k) => {InCancel(k)}
    case CancelWriteDone(k, _) => {InCancel(k)}
  }

  /** The places that the event brings its job to, or leaves it at. */
  function Come(s: State, e: Event): set<Place>
    requires Enabled(s, e) && !Schedules(e)
  {
    match e
    case RunningWritten(_) => {}
    case CallResolved(t) => {InTransition(t)}
    case TimerFired(t) => {InTransition(t)}
    case Rejected(t, _, _, _) =>
      if Retries(s, e) then {InQueue(|s.issued|)} + Owing(s, t, ByTimer) else {InTransition(t)}
    case SuccessWritten(t) => {InLog(|s.log|)} + Owing(s, t, ByTimer)
    case TimeoutHandled(t, _, _) =>
      if Retries(s, e) then {InQueue(|s.issued|)} + Owing(s, t, ByPromise) else {InTransition(t)}
    case FailedWriteDone(t, route, ok) => (if ok then {InLog(|s.log|)} else {}) + Owing(s, t, Other(route))
    case CancelRequested(id) =>
      if FindExecution(s.queue, id) >= 0 || id in s.running then {InCancel(|s.cancels|)} else {}
    case RunCancelled(k) => {InCancel(k)}
    case CancelWriteDone(_, ok) => if ok then {InLog(|s.log|)} else {}
  }

  /** Freeing a slot and changing the phase of one attempt. */
  lemma FreeThenPhase(s: State, s': State, id: string, t: nat, a: Attempt)
    requires Filed(s) && t in s.attempts && a.entry == s.attempts[t].entry && Finishing(a)
    requires s' == s.(running := s.running - {id}, attempts := s.attempts[t := a])
    ensures Turns(s, s', SlotAt(s, id), a.entry.job, {InTransition(t)})
  {
    var freed := s.(running := s.running - {id});
    FreeTurns(s, freed, id, a.entry.job);
    PhaseTurns(freed, t, a);
    TurnTwice(s, freed, s', SlotAt(s, id), {}, {InTransition(t)}, {InTransition(t)}, a.entry.job);
  }

  lemma ResolveTurns(s: State, t: nat)
    requires Filed(s) && t in s.attempts
    ensures
      var e := s.attempts[t].entry;
      Turns(s, Resolve(s, t), SlotAt(s, e.work.executionId), e.job, {InTransition(t)})
  {
    var a := s.attempts[t];
    var cleared := if a.timer == Armed then Disarmed else a.timer;
    FreeThenPhase(s, Resolve(s, t), a.entry.work.executionId, t, a.(promise := WritingSuccess, timer := cleared));
  }

  lemma ExpireTurns(s: State, t: nat)
    requires Filed(s) && t in s.attempts
    ensures
      var e := s.attempts[t].entry;
      Turns(s, Expire(s, t), SlotAt(s, e.work.executionId), e.job, {InTransition(t)})
  {
    var a := s.attempts[t];
    FreeThenPhase(s, Expire(s, t), a.entry.work.executionId, t, a.(timer := CancellingCall));
  }

  /** A retry joins the head of the queue once its parent's route is closed. */
  lemma RetryTurns(config: Config, s: State, t: nat, route: Route, draw: Jitter, now: int)
    requires Filed(s) && t in s.attempts
    ensures
      Turns(s, PushRetry(config, s, t, route, draw, now), {InTransition(t)}, s.attempts[t].entry.job,
            {InQueue(|s.issued|)} + Owing(s, t, Other(route)))
  {
    var a := s.attempts[t];
    var s' := PushRetry(config, s, t, route, draw, now);
    var done := if route.ByPromise? then a.(promise := Settled) else a.(timer := TimerDone);
    var closed := s.(attempts := s.attempts[t := done]);
    var retry := s'.issued[|s.issued|];
    assert s'.queue == InsertAt(closed.queue, 0, retry);
    PhaseTurns(s, t, done);
    JoinTurns(closed, s', 0, retry);
    assert TransitionOf(t, done) == Owing(s, t, Other(route));
    hide Turns, At, Filed, PushRetry;
    TurnTwice(s, closed, s', {InTransition(t)}, TransitionOf(t, done), {}, {InQueue(|s.issued|)}, a.entry.job);
    assert {InTransition(t)} + {} == {InTransition(t)};
    assert TransitionOf(t, done) - {} + {InQueue(|s.issued|)} == {InQueue(|s.issued|)} + Owing(s, t, Other(route));
  }

  lemma ErrorTurns(config: Config, s: State, t: nat, route: Route, error: ExecutionError, draw: Jitter, now: int)
    requires Filed(s) && t in s.attempts
    ensures
      Turns(s, HandleError(config, s, t, route, error, draw, now), {InTransition(t)}, s.attempts[t].entry.job,
            if ShouldRetry(s.attempts[t].entry, error) then {InQueue(|s.issued|)} + Owing(s, t, Other(route))
            else {InTransition(t)})
  {
    if ShouldRetry(s.attempts[t].entry, error) {
      RetryTurns(config, s, t, route, draw, now);
    } else {
      PhaseTurns(s, t, AwaitFailedWrite(s, t, route).attempts[t]);
    }
  }

  lemma ReleaseKeepsRest(s: State, id: string, t: nat)
    requires Filed(s) && t in s.attempts
    ensures
      var freed := ReleaseSlot(s, id);
      && Filed(freed) && freed.issued == s.issued
      && t in freed.attempts && freed.attempts[t].entry == s.attempts[t].entry
      && Owing(freed, t, ByTimer) == Owing(s, t, ByTimer)
  {
  }

  lemma RejectTurns(config: Config, s: State, e: Event)
    requires Filed(s) && Enabled(s, e) && e.Rejected?
    ensures Turns(s, Step(config, s, e), Gone(s, e), Mover(s, e), Come(s, e))
  {
    var a := s.attempts[e.t];
    var id := a.entry.work.executionId;
    var freed := ReleaseSlot(s, id);
    ReleaseTurns(s, id, a.entry.job);
    ReleaseKeepsRest(s, id, e.t);
    hide At, Filed, HandleError, ReleaseSlot, SlotAt, Owing, Turns, ShouldRetry;
    ErrorTurns(config, freed, e.t, ByPromise, e.error, e.draw, e.now);
    assert SlotAt(s, id) + {InTransition(e.t)} == Gone(s, e);
    TurnTwice(s, freed, Step(config, s, e), SlotAt(s, id), {}, {InTransition(e.t)}, Come(s, e), a.entry.job);
  }

  lemma EndingTurns(config: Config, s: State, e: Event)
    requires Filed(s) && Enabled(s, e) && (e.SuccessWritten? || e.FailedWriteDone?)
    ensures Turns(s, Step(config, s, e), Gone(s, e), Mover(s, e), Come(s, e))
  {
    var a := s.attempts[e.t];
    var route := if e.SuccessWritten? then ByPromise else e.route;
    var closed := CloseRoute(s, e.t, route);
    PhaseTurns(s, e.t, closed.attempts[e.t]);
    assert TransitionOf(e.t, closed.attempts[e.t]) == Owing(s, e.t, Other(route));
    if e.SuccessWritten? || e.ok {
      var r := if e.SuccessWritten? then Completed(a.entry.job) else Failed(a.entry.job);
      RecordTurns(closed, r);
      TurnTwice(s, closed, Append(closed, r), {InTransition(e.t)}, Owing(s, e.t, Other(route)),
                {}, {InLog(|s.log|)}, a.entry.job);
    }
  }

  lemma DequeueTurns(s: State, id: string, i: nat)
    requires Filed(s) && FindExecution(s.queue, id) == i
    ensures Turns(s, Cancel(s, id), {InQueue(s.queue[i].ticket)}, s.queue[i].job, {InCancel(|s.cancels|)})
  {
    var mid := s.(queue := RemoveAt(s.queue, i));
    var gone, come := {InQueue(s.queue[i].ticket)}, {InCancel(|s.cancels|)};
    RemoveTurns(s, i, s.queue[i].job);
    CallTurns(mid, CancelCall(id, s.queue[i].job, WritingCancelled));
    hide Turns, At, Filed;
    TurnTwice(s, mid, Cancel(s, id), gone, {}, {}, come, s.queue[i].job);
    assert gone + {} == gone && ({} - {}) + come == come;
  }

  lemma StopTurns(s: State, id: string)
    requires Filed(s) && FindExecution(s.queue, id) < 0 && id in s.running && s.running[id] in s.attempts
    ensures
      Turns(s, Cancel(s, id), SlotAt(s, id), s.attempts[s.running[id]].entry.job, {InCancel(|s.cancels|)})
  {
    var mid, j := ReleaseSlot(s, id), s.attempts[s.running[id]].entry.job;
    var gone, come := SlotAt(s, id), {InCancel(|s.cancels|)};
    ReleaseTurns(s, id, j);
    CallTurns(mid, CancelCall(id, j, CancellingRun));
    hide Turns, At, Filed;
    TurnTwice(s, mid, Cancel(s, id), gone, {}, {}, come, j);
    assert gone + {} == gone && ({} - {}) + come == come;
  }

  lemma CancelTurns(config: Config, s: State, e: Event)
    requires Filed(s) && e.CancelRequested?
    ensures Turns(s, Step(config, s, e), Gone(s, e), Mover(s, e), Come(s, e))
  {
    var id := e.executionId;
    var i := FindExecution(s.queue, id);
    if i >= 0 {
      DequeueTurns(s, id, i);
    } else if id in s.running {
      StopTurns(s, id);
    }
  }

  lemma CallEndTurns(config: Config, s: State, e: Event)
    requires Enabled(s, e) && (e.RunCancelled? || e.CancelWriteDone?)
    ensures Turns(s, Step(config, s, e), Gone(s, e), Mover(s, e), Come(s, e))
  {
    match e
    case RunCancelled(k) => CallPhaseTurns(s, k, WritingCancelled);
    case CancelWriteDone(k, ok) =>
      CallPhaseTurns(s, k, CancelDone);
      if ok {
        var done, r := SetCancel(s, k, CancelDone), Cancelled(s.cancels[k].job);
        RecordTurns(done, r);
        TurnTwice(s, done, Append(done, r), {InCancel(k)}, {}, {}, {InLog(|s.log|)}, s.cancels[k].job);
      }
  }

  /** What an event does to places, unless it goes on to drain the queue. */
  lemma StepTurns(config: Config, s: State, e: Event)
    requires Filed(s) && Enabled(s, e) && !Schedules(e)
    ensures Turns(s, Step(config, s, e), Gone(s, e), Mover(s, e), Come(s, e))
  {
    match e
    case RunningWritten(t) => PhaseTurns(s, t, s.attempts[t].(promise := Calling));
    case CallResolved(t) => ResolveTurns(s, t);
    case TimerFired(t) => ExpireTurns(s, t);
    case Rejected(_, _, _, _) => RejectTurns(config, s, e);
    case SuccessWritten(_) => EndingTurns(config, s, e);
    case TimeoutHandled(t, draw, now) => ErrorTurns(config, s, t, ByTimer, TIMEOUT_ERROR, draw, now);
    case FailedWriteDone(_, _, _) => EndingTurns(config, s, e);
    case CancelRequested(_) => CancelTurns(config, s, e);
    case RunCancelled(_) => CallEndTurns(config, s, e);
    case CancelWriteDone(_, _) => CallEndTurns(config, s, e);
  }
}
