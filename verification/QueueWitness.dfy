/**
 Concrete runs that show what the queue does not promise. An execution can come to two places
 and can be lost, and a cancellation can leave the queue out of order.
 */
module QueueWitness {
  import opened Backoff
  import opened Common
  import opened QueueConservation
  import opened QueueInvariant
  import opened QueueModel
  import opened QueueOrder
  import opened QueuePlaces
  import opened QueueRetries

  const DEFAULTS := Config(5, 300000, 3, 1000.0, 60000.0)

  const ONE_SLOT := Config(1, 300000, 3, 1000.0, 60000.0)

  lemma DefaultsConfigured()
    ensures Configure(Options(None, None, None, None, None)) == DEFAULTS
  {
  }

  // ---------------------------------------------------------------------------------
  // Runs from any state

  /** The state that a run comes to from s. */
  function From(config: Config, s: State, run: seq<Event>): State
    decreases |run|
  {
    if run == [] then s else From(config, Next(config, s, run[0]), run[1..])
  }

  lemma {:induction false} AfterMore(config: Config, run: seq<Event>, more: seq<Event>)
    ensures After(config, run + more) == From(config, After(config, run), more)
    decreases |more|
  {
    if more == [] {
      assert run + more == run;
    } else {
      assert run + more == run + [more[0]] + more[1..];
      assert (run + [more[0]])[..|run|] == run;
      AfterMore(config, run + [more[0]], more[1..]);
    }
  }

  lemma {:induction false} FromMore(config: Config, s: State, run: seq<Event>, more: seq<Event>)
    ensures From(config, s, run + more) == From(config, From(config, s, run), more)
    decreases |run|
  {
    if run == [] {
      assert run + more == more;
    } else {
      assert (run + more)[1..] == run[1..] + more;
      FromMore(config, Next(config, s, run[0]), run[1..], more);
    }
  }

  lemma FromOne(config: Config, s: State, e: Event)
    ensures From(config, s, [e]) == Next(config, s, e)
  {
    hide Next;
  }

  lemma FromTwo(config: Config, s: State, a: Event, b: Event)
    ensures From(config, s, [a, b]) == Next(config, Next(config, s, a), b)
  {
    hide Next;
    assert [a, b][1..] == [b];
    assert From(config, Next(config, s, a), [b]) == Next(config, Next(config, s, a), b);
  }

  lemma FromThree(config: Config, s: State, a: Event, b: Event, c: Event)
    ensures From(config, s, [a, b, c]) == Next(config, Next(config, Next(config, s, a), b), c)
  {
    hide Next;
    assert [a, b, c][1..] == [b, c];
    FromTwo(config, Next(config, s, a), b, c);
  }

  lemma AfterFrom(config: Config, run: seq<Event>)
    ensures After(config, run) == From(config, INITIAL, run)
  {
    assert [] + run == run;
    AfterMore(config, [], run);
  }

  function ClockAfter(clock: int, run: seq<Event>): int
    decreases |run|
  {
    if run == [] then clock else ClockAfter(if Timed(run[0]) then run[0].now else clock, run[1..])
  }

  /** The clock does not go back in the run. */
  predicate Forward(clock: int, run: seq<Event>)
    decreases |run|
  {
    run == []
    || (&& (Timed(run[0]) ==> clock <= Begins(run[0]) <= run[0].now)
        && Forward(if Timed(run[0]) then run[0].now else clock, run[1..]))
  }

  lemma {:induction false} MonotoneMore(start: int, run: seq<Event>, more: seq<Event>)
    requires Monotone(start, run) && Forward(Clock(start, run), more)
    ensures Monotone(start, run + more) && Clock(start, run + more) == ClockAfter(Clock(start, run), more)
    decreases |more|
  {
    if more == [] {
      assert run + more == run;
    } else {
      assert run + more == run + [more[0]] + more[1..];
      assert (run + [more[0]])[..|run|] == run;
      MonotoneMore(start, run + [more[0]], more[1..]);
    }
  }

  // ---------------------------------------------------------------------------------
  // An attempt that is given up and fails after all

  /** The attempt times out while its call is under way; the abandoned call fails afterwards. */
  function GiveUp(t: nat, now: int, later: int): seq<Event> {
    [DrainTick(now), RunningWritten(t), TimerFired(t), TimeoutHandled(t, 0.0, later), Rejected(t, OtherError, 0.0, later + 1)]
  }

  function Delay(config: Config, e: Entry): real {
    RetryDelay(config.retryDelayBase, config.retryDelayMax, e.retryCount + 1, 0.0)
  }

  /** The entries that the two routes of e leave behind, if it may be retried, newest first; n objects were made before. */
  function TwoRetries(config: Config, n: nat, e: Entry, later: int): seq<Entry> {
    if e.retryCount < e.work.maxRetries then
      [RetryEntry(n + 1, e, ByPromise, Delay(config, e), later + 1), RetryEntry(n, e, ByTimer, Delay(config, e), later)]
    else []
  }

  function TwoRecords(config: Config, n: nat, e: Entry, later: int): seq<Record> {
    if e.retryCount < e.work.maxRetries then
      [Retrying(RetryEntry(n, e, ByTimer, Delay(config, e), later), Delay(config, e), later),
       Retrying(RetryEntry(n + 1, e, ByPromise, Delay(config, e), later + 1), Delay(config, e), later + 1)]
    else []
  }

  /** Attempt t has just been started and is the only one that runs; the scheduled drain will find nothing to do. */
  predicate JustStarted(config: Config, s: State, t: nat) {
    && t in s.attempts && s.attempts[t].promise == WritingRunning && s.attempts[t].timer == Armed
    && s.attempts[t].entry.ticket == t
    && s.running == map[s.attempts[t].entry.work.executionId := t]
    && s.drains == 1 && (s.queue == [] || config.maxConcurrent == 1)
  }

  lemma TimesOut(config: Config, s: State, t: nat, now: int)
    requires JustStarted(config, s, t)
    ensures
      var s' := From(config, s, [DrainTick(now), RunningWritten(t), TimerFired(t)]);
      s' == s.(running := map[], drains := 0,
               attempts := s.attempts[t := Attempt(s.attempts[t].entry, Calling, CancellingCall)])
  {
    var s1 := Next(config, s, DrainTick(now));
    assert s1 == s.(drains := 0);
    var s2 := Next(config, s1, RunningWritten(t));
    var s3 := Next(config, s2, TimerFired(t));
    assert s3.running == map[];
    assert s3.attempts == s.attempts[t := Attempt(s.attempts[t].entry, Calling, CancellingCall)];
    FromThree(config, s, DrainTick(now), RunningWritten(t), TimerFired(t));
  }

  lemma FailsTwice(config: Config, s: State, t: nat, later: int)
    requires t in s.attempts && s.attempts[t].promise == Calling && s.attempts[t].timer == CancellingCall
    requires s.running == map[]
    ensures
      var e := s.attempts[t].entry;
      var s' := From(config, s, [TimeoutHandled(t, 0.0, later), Rejected(t, OtherError, 0.0, later + 1)]);
      && s'.running == map[] && s'.drains == s.drains && s'.works == s.works
      && s'.queue == TwoRetries(config, |s.issued|, e, later) + s.queue
      && s'.log == s.log + TwoRecords(config, |s.issued|, e, later)
  {
    var s1 := Next(config, s, TimeoutHandled(t, 0.0, later));
    var s2 := Next(config, s1, Rejected(t, OtherError, 0.0, later + 1));
    assert s1.attempts[t].promise == Calling && s1.attempts[t].entry == s.attempts[t].entry;
    FromTwo(config, s, TimeoutHandled(t, 0.0, later), Rejected(t, OtherError, 0.0, later + 1));
  }

  lemma GivenUp(config: Config, s: State, t: nat, now: int, later: int)
    requires JustStarted(config, s, t)
    ensures
      var e := s.attempts[t].entry;
      var s' := From(config, s, GiveUp(t, now, later));
      && s'.running == map[] && s'.drains == 0 && s'.works == s.works
      && s'.queue == TwoRetries(config, |s.issued|, e, later) + s.queue
      && s'.log == s.log + TwoRecords(config, |s.issued|, e, later)
  {
    var expires := [DrainTick(now), RunningWritten(t), TimerFired(t)];
    var fails := [TimeoutHandled(t, 0.0, later), Rejected(t, OtherError, 0.0, later + 1)];
    assert GiveUp(t, now, later) == expires + fails;
    TimesOut(config, s, t, now);
    FailsTwice(config, From(config, s, expires), t, later);
    hide From;
    FromMore(config, s, expires, fails);
  }

  // ---------------------------------------------------------------------------------
  // An execution in two places

  /** A request that allows one retry. */
  const ONCE := Work("e1", "w1", "u1", "{}", "{}", 1, 0, 300000)

  /** Its call is given up after 300 seconds and fails a millisecond after the timeout was handled. */
  const LATE_FAILURE: seq<Event> := [Enqueue(ONCE, 0, 0)] + GiveUp(0, 0, 300000)

  const FIRST_TRY := Entry(0, 0, First, ONCE, 0, 0)

  /** The state after the first enqueue. */
  const FIRST_RUNS :=
    State([], map["e1" := 0], map[0 := Attempt(FIRST_TRY, WritingRunning, Armed)], {}, 1, [], [ONCE], [FIRST_TRY],
          [Enqueued(FIRST_TRY), Started(FIRST_TRY, 0)])

  lemma FirstStarts()
    ensures Next(DEFAULTS, INITIAL, Enqueue(ONCE, 0, 0)) == FIRST_RUNS
  {
    assert InsertAt([], 0, FIRST_TRY) == [FIRST_TRY];
    assert Insert(INITIAL, ONCE, 0).log == [Enqueued(FIRST_TRY)];
    assert FIRST_RUNS.log == [Enqueued(FIRST_TRY)] + [Started(FIRST_TRY, 0)];
    assert Next(DEFAULTS, INITIAL, Enqueue(ONCE, 0, 0))
        == Start(Insert(INITIAL, ONCE, 0).(queue := []), FIRST_TRY, 0).(drains := 1);
  }

  lemma AfterFirst(more: seq<Event>)
    ensures After(DEFAULTS, [Enqueue(ONCE, 0, 0)] + more) == From(DEFAULTS, FIRST_RUNS, more)
  {
    var run := [Enqueue(ONCE, 0, 0)] + more;
    AfterFrom(DEFAULTS, run);
    FirstStarts();
    hide Next;
    assert run[0] == Enqueue(ONCE, 0, 0) && run[1..] == more;
  }

  /** A call that fails after its timeout leaves one accepted execution in the queue twice. */
  lemma LateFailureDuplicates()
    ensures Monotone(0, LATE_FAILURE)
    ensures
      var s := After(DEFAULTS, LATE_FAILURE);
      At(s, 0, InQueue(1)) && At(s, 0, InQueue(2))
    ensures !ApartRun(DEFAULTS, LATE_FAILURE, 0) && !FreshRun(DEFAULTS, LATE_FAILURE, 0)
  {
    AfterFirst(GiveUp(0, 0, 300000));
    GivenUp(DEFAULTS, FIRST_RUNS, 0, 0, 300000);
    var s := After(DEFAULTS, LATE_FAILURE);
    assert s.queue[0].ticket == 2 && s.queue[1].ticket == 1;
    RunKeeps(DEFAULTS, LATE_FAILURE);
    assert Known(s, s.queue[0]) && Known(s, s.queue[1]);
    LateFailureForward();
    hide Next, From, After, Inv;
    assert At(s, 0, InQueue(1)) && At(s, 0, InQueue(2));
    Separation(DEFAULTS, LATE_FAILURE, 0);
    assert LATE_FAILURE[..|LATE_FAILURE|] == LATE_FAILURE;
    assert !AtMostOne(s, 0);
    LevelsClimb(DEFAULTS, LATE_FAILURE, 0);
    assert !Climbs(s.issued[1], s.issued[2], 0);
  }

  lemma GiveUpForward(t: nat, now: int, later: int)
    requires now <= later
    ensures Forward(now, GiveUp(t, now, later))
  {
    var run := GiveUp(t, now, later);
    assert run[1..][1..][1..] == [TimeoutHandled(t, 0.0, later), Rejected(t, OtherError, 0.0, later + 1)];
    assert Forward(later, [Rejected(t, OtherError, 0.0, later + 1)]);
    assert Forward(now, run[1..][1..][1..]);
    assert Forward(now, run[1..][1..]);
    assert Forward(now, run[1..]);
  }

  lemma ForwardIsMonotone(run: seq<Event>)
    requires Forward(0, run)
    ensures Monotone(0, run)
  {
    assert [] + run == run;
    MonotoneMore(0, [], run);
  }

  lemma LateFailureForward()
    ensures Monotone(0, LATE_FAILURE)
  {
    GiveUpForward(0, 0, 300000);
    assert LATE_FAILURE[1..] == GiveUp(0, 0, 300000);
    ForwardIsMonotone(LATE_FAILURE);
  }

  // ---------------------------------------------------------------------------------
  // Executions that are lost

  /** The same execution is enqueued again while it runs. */
  const TWICE: seq<Event> := [Enqueue(ONCE, 0, 0), Enqueue(ONCE, 1, 1)]

  const SECOND_TRY := Entry(1, 1, First, ONCE, 0, 1)

  const SECOND_RUNS :=
    State([], map["e1" := 1],
          map[0 := Attempt(FIRST_TRY, WritingRunning, Armed), 1 := Attempt(SECOND_TRY, WritingRunning, Armed)],
          {}, 2, [], [ONCE, ONCE], [FIRST_TRY, SECOND_TRY],
          [Enqueued(FIRST_TRY), Started(FIRST_TRY, 0), Enqueued(SECOND_TRY), Started(SECOND_TRY, 1)])

  lemma SecondStarts()
    ensures Next(DEFAULTS, FIRST_RUNS, Enqueue(ONCE, 1, 1)) == SECOND_RUNS
  {
    assert InsertAt([], 0, SECOND_TRY) == [SECOND_TRY];
    var inserted := Insert(FIRST_RUNS, ONCE, 1);
    assert inserted.queue == [SECOND_TRY] && inserted.works == [ONCE, ONCE] && inserted.issued == [FIRST_TRY, SECOND_TRY];
    assert inserted.log + [Started(SECOND_TRY, 1)] == SECOND_RUNS.log;
    assert FIRST_RUNS.running["e1" := 1] == map["e1" := 1];
    assert Next(DEFAULTS, FIRST_RUNS, Enqueue(ONCE, 1, 1))
        == Start(inserted.(queue := []), SECOND_TRY, 1).(drains := 2);
  }

  lemma FirstIsNowhere()
    ensures !Somewhere(SECOND_RUNS, 0) && |SECOND_RUNS.works| == 2
  {
    assert forall p: Place :: !At(SECOND_RUNS, 0, p);
  }

  /** The second start takes over the slot of the first, and the first request is nowhere. */
  lemma DuplicateIdLoses()
    ensures !Somewhere(After(DEFAULTS, TWICE), 0) && !KeepingRun(DEFAULTS, TWICE, 0)
  {
    assert TWICE == [Enqueue(ONCE, 0, 0)] + [Enqueue(ONCE, 1, 1)];
    AfterFirst([Enqueue(ONCE, 1, 1)]);
    SecondStarts();
    FromOne(DEFAULTS, FIRST_RUNS, Enqueue(ONCE, 1, 1));
    FirstIsNowhere();
    hide *;
    assert |After(DEFAULTS, TWICE).works| == 2;
    NowhereIsLost(DEFAULTS, TWICE, 0);
  }

  lemma NowhereIsLost(config: Config, run: seq<Event>, j: nat)
    requires j < |After(config, run).works| && !Somewhere(After(config, run), j)
    ensures !KeepingRun(config, run, j)
  {
    Conservation(config, run, j);
    assert run[..|run|] == run;
  }

  /** The call fails for good, and then the status write fails. */
  const FAILED_WRITE: seq<Event> :=
    [Enqueue(ONCE, 0, 0), RunningWritten(0), Rejected(0, AppError(UNAUTHORIZED), 0.0, 1), FailedWriteDone(0, ByPromise, false)]

  /** A failed status write leaves the execution nowhere, and no outcome is ever reported. */
  lemma FailedWriteLoses()
    ensures
      var s := After(DEFAULTS, FAILED_WRITE);
      !Somewhere(s, 0) && s.log == [Enqueued(FIRST_TRY), Started(FIRST_TRY, 0)]
    ensures !KeepingRun(DEFAULTS, FAILED_WRITE, 0)
  {
    var more := [RunningWritten(0), Rejected(0, AppError(UNAUTHORIZED), 0.0, 1), FailedWriteDone(0, ByPromise, false)];
    assert FAILED_WRITE == [Enqueue(ONCE, 0, 0)] + more;
    AfterFirst(more);
    FromThree(DEFAULTS, FIRST_RUNS, more[0], more[1], more[2]);
    var s := From(DEFAULTS, FIRST_RUNS, more);
    assert s.attempts == map[0 := Attempt(FIRST_TRY, Settled, Disarmed)];
    assert s.running == map[];
    assert forall p: Place :: !At(s, 0, p);
    hide Next, From;
    NowhereIsLost(DEFAULTS, FAILED_WRITE, 0);
  }

  // ---------------------------------------------------------------------------------
  // A queue out of order

  function Request(executionId: string, priority: int): Work {
    Work(executionId, "w1", "u1", "{}", "{}", 3, priority, 300000)
  }

  const A := Request("a", 0)
  const X := Request("x", 5)
  const Y := Request("y", 9)
  const Z := Request("z", 5)

  /**
   The call for a fails while y waits, so that its retry is put in front of y. Then x arrives
   and takes the slot, z is put in front of the retry, and the retry is cancelled.
   */
  const CANCEL_BETWEEN: seq<Event> :=
    [Enqueue(A, 0, 0), DrainTick(0), Enqueue(Y, 1, 1)]
    + [RunningWritten(0), Rejected(0, OtherError, 0.0, 2)] + [Enqueue(X, 3, 3)]
    + [DrainTick(3), Enqueue(Z, 4, 4), CancelRequested("a")]

  const FIRST_A := Entry(0, 0, First, A, 0, 0)
  const FIRST_Y := Entry(1, 1, First, Y, 0, 1)

  lemma YWaits()
    ensures
      var s := From(ONE_SLOT, INITIAL, [Enqueue(A, 0, 0), DrainTick(0), Enqueue(Y, 1, 1)]);
      && s.queue == [FIRST_Y] && s.running == map["a" := 0] && s.drains == 0
      && s.attempts == map[0 := Attempt(FIRST_A, WritingRunning, Armed)]
      && s.works == [A, Y] && |s.issued| == 2
  {
    var s1 := Next(ONE_SLOT, INITIAL, Enqueue(A, 0, 0));
    ARuns();
    assert InsertAt([], 0, FIRST_Y) == [FIRST_Y];
    var s2 := Next(ONE_SLOT, s1, DrainTick(0));
    assert s2 == s1.(drains := 0);
    FromThree(ONE_SLOT, INITIAL, Enqueue(A, 0, 0), DrainTick(0), Enqueue(Y, 1, 1));
  }

  lemma ARuns()
    ensures
      var s := Next(ONE_SLOT, INITIAL, Enqueue(A, 0, 0));
      && s.queue == [] && s.running == map["a" := 0] && s.drains == 1
      && s.attempts == map[0 := Attempt(FIRST_A, WritingRunning, Armed)]
      && s.works == [A] && |s.issued| == 1
  {
    assert InsertAt([], 0, FIRST_A) == [FIRST_A];
    assert Next(ONE_SLOT, INITIAL, Enqueue(A, 0, 0))
        == Start(Insert(INITIAL, A, 0).(queue := []), FIRST_A, 0).(drains := 1);
  }

  lemma RetryInFront(s: State)
    requires s.queue == [FIRST_Y] && s.running == map["a" := 0] && s.drains == 0
    requires s.attempts == map[0 := Attempt(FIRST_A, WritingRunning, Armed)] && s.works == [A, Y] && |s.issued| == 2
    ensures
      var s' := From(ONE_SLOT, s, [RunningWritten(0), Rejected(0, OtherError, 0.0, 2)]);
      && |s'.queue| == 2 && s'.queue[0].work == A && s'.queue[0].retryCount == 1 && s'.queue[1] == FIRST_Y
      && s'.running == map[] && s'.drains == 0 && s'.works == [A, Y] && |s'.issued| == 3
  {
    FromTwo(ONE_SLOT, s, RunningWritten(0), Rejected(0, OtherError, 0.0, 2));
    var s1 := Next(ONE_SLOT, s, RunningWritten(0));
    assert s1.attempts == map[0 := Attempt(FIRST_A, Calling, Armed)];
    assert s1.running - {"a"} == map[];
  }

  lemma XTakesSlot(s: State)
    requires |s.queue| == 2 && s.queue[0].work == A && s.queue[0].retryCount == 1 && s.queue[1] == FIRST_Y
    requires s.running == map[] && s.drains == 0 && s.works == [A, Y] && |s.issued| == 3
    ensures
      var s' := Next(ONE_SLOT, s, Enqueue(X, 3, 3));
      && s'.queue == s.queue && s'.running == map["x" := 3] && s'.drains == 1
      && s'.works == [A, Y, X] && |s'.issued| == 4
  {
    var x := Entry(3, 2, First, X, 0, 3);
    assert FindLower(s.queue, 5) == 0;
    assert Insert(s, X, 3).queue == [x] + s.queue;
    assert ([x] + s.queue)[1..] == s.queue;
  }

  lemma ZAndY(s: State)
    requires |s.queue| == 2 && s.queue[0].work == A && s.queue[0].retryCount == 1 && s.queue[1] == FIRST_Y
    requires s.running == map["x" := 3] && s.drains == 1 && s.works == [A, Y, X] && |s.issued| == 4
    ensures
      From(ONE_SLOT, s, [DrainTick(3), Enqueue(Z, 4, 4), CancelRequested("a")]).queue
      == [Entry(4, 3, First, Z, 0, 4), FIRST_Y]
  {
    FromThree(ONE_SLOT, s, DrainTick(3), Enqueue(Z, 4, 4), CancelRequested("a"));
    var s1 := Next(ONE_SLOT, s, DrainTick(3));
    var s2 := Next(ONE_SLOT, s1, Enqueue(Z, 4, 4));
    assert FindLower(s.queue, 5) == 0;
    assert s2.queue == [Entry(4, 3, First, Z, 0, 4)] + s.queue;
    assert FindExecution(s2.queue, "a") == 1;
    assert RemoveAt(s2.queue, 1) == [Entry(4, 3, First, Z, 0, 4), FIRST_Y];
  }

  /** A request of priority 5 is left in front of one of priority 9, with no retry between them. */
  lemma CancelDisorders()
    ensures Monotone(0, CANCEL_BETWEEN)
    ensures !Ordered(After(ONE_SLOT, CANCEL_BETWEEN).queue) && !GentleRun(ONE_SLOT, CANCEL_BETWEEN)
  {
    var first := [Enqueue(A, 0, 0), DrainTick(0), Enqueue(Y, 1, 1)];
    var second := [RunningWritten(0), Rejected(0, OtherError, 0.0, 2)];
    var arrives := [Enqueue(X, 3, 3)];
    var third := [DrainTick(3), Enqueue(Z, 4, 4), CancelRequested("a")];
    YWaits();
    var s1 := From(ONE_SLOT, INITIAL, first);
    RetryInFront(s1);
    var s2 := From(ONE_SLOT, s1, second);
    XTakesSlot(s2);
    FromOne(ONE_SLOT, s2, arrives[0]);
    var s3 := From(ONE_SLOT, s2, arrives);
    ZAndY(s3);
    CancelForward();
    hide *;
    assert CANCEL_BETWEEN == first + second + arrives + third;
    AfterFrom(ONE_SLOT, CANCEL_BETWEEN);
    FromMore(ONE_SLOT, INITIAL, first + second + arrives, third);
    FromMore(ONE_SLOT, INITIAL, first + second, arrives);
    FromMore(ONE_SLOT, INITIAL, first, second);
    Disordered(ONE_SLOT, CANCEL_BETWEEN);
  }

  lemma Disordered(config: Config, run: seq<Event>)
    requires Monotone(0, run)
    requires var queue := After(config, run).queue;
      |queue| == 2 && queue[0].work == Z && queue[1].work == Y && queue[0].retryCount == queue[1].retryCount == 0
    ensures !Ordered(After(config, run).queue) && !GentleRun(config, run)
  {
    var queue := After(config, run).queue;
    assert Stretch(queue, 0, 1) && !Before(queue[0], queue[1]);
    hide After;
    OrderedExactly(config, 0, run);
    assert run[..|run|] == run;
  }

  lemma CancelForward()
    ensures Monotone(0, CANCEL_BETWEEN)
  {
    var run := CANCEL_BETWEEN;
    assert Forward(4, run[8..]);
    assert run[7..][1..] == run[8..] && Forward(3, run[7..]);
    assert run[6..][1..] == run[7..] && Forward(3, run[6..]);
    assert run[5..][1..] == run[6..] && Forward(2, run[5..]);
    assert run[4..][1..] == run[5..] && Forward(1, run[4..]);
    assert run[3..][1..] == run[4..] && Forward(1, run[3..]);
    assert run[2..][1..] == run[3..] && Forward(0, run[2..]);
    assert run[1..][1..] == run[2..] && Forward(0, run[1..]);
    ForwardIsMonotone(run);
  }
}
