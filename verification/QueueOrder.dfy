/**
 The order of the queue. Retries jump to the head, so the array as a whole is not sorted;
 the stretches of first tries between two retries are.
 */
module QueueOrder {
  import opened Backoff
  import opened QueueModel
  import opened QueueInvariant

  /** a is served before b: higher priority first, then first come. */
  predicate Before(a: Entry, b: Entry) {
    a.work.priority > b.work.priority || (a.work.priority == b.work.priority && a.job < b.job)
  }

  /** Only first tries stand from i to j. */
  ghost predicate Stretch(queue: seq<Entry>, i: nat, j: nat)
    requires i <= j < |queue|
  {
    forall k | i <= k <= j :: queue[k].retryCount == 0
  }

  /** Within every stretch of first tries, the queue is in order. */
  ghost predicate Ordered(queue: seq<Entry>) {
    forall i: nat, j: nat {:trigger Before(queue[i], queue[j])} | i < j < |queue| && Stretch(queue, i, j) ::
      Before(queue[i], queue[j])
  }

  /** Entry i can leave without joining two stretches that do not fit together. */
  predicate Seamless(queue: seq<Entry>, i: nat)
    requires i < |queue|
  {
    || queue[i].retryCount == 0
    || i == 0 || i == |queue| - 1
    || queue[i - 1].retryCount > 0 || queue[i + 1].retryCount > 0
    || Before(queue[i - 1], queue[i + 1])
  }

  // ---------------------------------------------------------------------------------
  // What keeps the order

  lemma InsertOrdered(queue: seq<Entry>, e: Entry)
    requires Ordered(queue) && forall k | 0 <= k < |queue| :: queue[k].job < e.job
    ensures Ordered(InsertAt(queue, InsertIndex(queue, e.work.priority), e))
  {
    var n := InsertIndex(queue, e.work.priority);
    var longer := InsertAt(queue, n, e);
    forall i: nat, j: nat | i < j < |longer| && Stretch(longer, i, j)
      ensures Before(longer[i], longer[j])
    {
      var a := if i < n then i else i - 1;
      var b := if j < n then j else j - 1;
      if j == n {
      } else if i == n {
        assert longer[i + 1] == queue[n] && longer[j] == queue[b];
        if n < b {
          assert Stretch(queue, n, b) by {
            forall k | n <= k <= b
              ensures queue[k].retryCount == 0
            {
              assert longer[k + 1] == queue[k];
            }
          }
          assert Before(queue[n], queue[b]);
        }
      } else {
        assert Stretch(queue, a, b) by {
          forall k | a <= k <= b
            ensures queue[k].retryCount == 0
          {
            assert longer[if k < n then k else k + 1] == queue[k];
          }
        }
        assert longer[i] == queue[a] && longer[j] == queue[b];
        assert Before(queue[a], queue[b]);
      }
    }
  }

  lemma PopOrdered(queue: seq<Entry>)
    requires Ordered(queue) && queue != []
    ensures Ordered(queue[1..])
  {
    var rest := queue[1..];
    forall i: nat, j: nat | i < j < |rest| && Stretch(rest, i, j)
      ensures Before(rest[i], rest[j])
    {
      assert Stretch(queue, i + 1, j + 1) by {
        forall k | i + 1 <= k <= j + 1
          ensures queue[k].retryCount == 0
        {
          assert rest[k - 1] == queue[k];
        }
      }
      assert Before(queue[i + 1], queue[j + 1]);
    }
  }

  lemma UnshiftOrdered(queue: seq<Entry>, retry: Entry)
    requires Ordered(queue) && retry.retryCount > 0
    ensures Ordered([retry] + queue)
  {
    var longer := [retry] + queue;
    forall i: nat, j: nat | i < j < |longer| && Stretch(longer, i, j)
      ensures Before(longer[i], longer[j])
    {
      assert longer[i].retryCount == 0;
      assert Stretch(queue, i - 1, j - 1) by {
        forall k | i - 1 <= k <= j - 1
          ensures queue[k].retryCount == 0
        {
          assert longer[k + 1] == queue[k];
        }
      }
      assert Before(queue[i - 1], queue[j - 1]);
    }
  }

  lemma StretchAround(queue: seq<Entry>, n: nat, i: nat, j: nat)
    requires n < |queue| && i < n <= j < |queue| - 1 && queue[n].retryCount > 0
    requires Stretch(RemoveAt(queue, n), i, j)
    ensures Stretch(queue, i, n - 1) && Stretch(queue, n + 1, j + 1)
  {
    var rest := RemoveAt(queue, n);
    forall k | i <= k <= n - 1
      ensures queue[k].retryCount == 0
    {
      assert rest[k] == queue[k];
    }
    forall k | n + 1 <= k <= j + 1
      ensures queue[k].retryCount == 0
    {
      assert rest[k - 1] == queue[k];
    }
  }

  lemma SeamlessRemoval(queue: seq<Entry>, n: nat)
    requires Ordered(queue) && n < |queue| && Seamless(queue, n)
    ensures Ordered(RemoveAt(queue, n))
  {
    var rest := RemoveAt(queue, n);
    forall i: nat, j: nat | i < j < |rest| && Stretch(rest, i, j)
      ensures Before(rest[i], rest[j])
    {
      var a := if i < n then i else i + 1;
      var b := if j < n then j else j + 1;
      assert rest[i] == queue[a] && rest[j] == queue[b];
      if a < n < b && queue[n].retryCount > 0 {
        StretchAround(queue, n, i, j);
        assert a < n - 1 ==> Before(queue[a], queue[n - 1]);
        assert n + 1 < b ==> Before(queue[n + 1], queue[b]);
      } else {
        assert Stretch(queue, a, b) by {
          forall k | a <= k <= b
            ensures queue[k].retryCount == 0
          {
            if k != n {
              assert rest[if k < n then k else k - 1] == queue[k];
            }
          }
        }
        assert Before(queue[a], queue[b]);
      }
    }
  }

  /** Removing an entry keeps the order exactly when it joins no two stretches out of order. */
  lemma RemovalKeepsOrder(queue: seq<Entry>, n: nat)
    requires Ordered(queue) && n < |queue|
    ensures Ordered(RemoveAt(queue, n)) <==> Seamless(queue, n)
  {
    if Seamless(queue, n) {
      SeamlessRemoval(queue, n);
    } else {
      var rest := RemoveAt(queue, n);
      assert rest[n - 1] == queue[n - 1] && rest[n] == queue[n + 1];
      assert Stretch(rest, n - 1, n);
      assert !Before(rest[n - 1], rest[n]);
    }
  }

  // ---------------------------------------------------------------------------------
  // Runs under a clock that never goes back

  predicate Timed(e: Event) {
    e.Enqueue? || e.DrainTick? || e.Wake? || e.Rejected? || e.TimeoutHandled?
  }

  /** The clock reading at which an event begins. */
  function Begins(e: Event): int
    requires Timed(e)
  {
    if e.Enqueue? then e.at else e.now
  }

  /** The last clock reading taken in a run, or `start` if there was none. */
  function Clock(start: int, run: seq<Event>): int {
    if run == [] then start
    else
      var e := run[|run| - 1];
      if Timed(e) then e.now else Clock(start, run[..|run| - 1])
  }

  predicate Monotone(start: int, run: seq<Event>) {
    run == []
    || (&& Monotone(start, run[..|run| - 1])
        && var e := run[|run| - 1];
           Timed(e) ==> Clock(start, run[..|run| - 1]) <= Begins(e) <= e.now)
  }

  /** The event does not cancel a retry whose leaving would join two misfitting stretches. */
  predicate Gentle(s: State, e: Event) {
    e.CancelRequested? ==>
      var i := FindExecution(s.queue, e.executionId);
      i >= 0 ==> Seamless(s.queue, i)
  }

  predicate GentleRun(config: Config, run: seq<Event>) {
    run == []
    || (GentleRun(config, run[..|run| - 1]) && Gentle(After(config, run[..|run| - 1]), run[|run| - 1]))
  }

  /** In order, with every first try due by now and none of them parked. */
  ghost predicate InOrder(s: State, clock: int) {
    && Ordered(s.queue)
    && (forall k | 0 <= k < |s.queue| :: s.queue[k].retryCount == 0 ==> s.queue[k].scheduledAt <= clock)
    && (forall e | e in s.parked :: e.retryCount > 0)
  }

  lemma InsertInOrder(config: Config, s: State, clock: int, work: Work, at: int)
    requires Inv(config, s) && InOrder(s, clock) && clock <= at
    ensures InOrder(Insert(s, work, at), at)
  {
    var s' := Insert(s, work, at);
    var e := s'.issued[|s.issued|];
    forall k | 0 <= k < |s.queue|
      ensures s.queue[k].job < |s.works|
    {
      assert Known(s, s.queue[k]) && WellBorn(s, s.queue[k].ticket);
    }
    InsertOrdered(s.queue, e);
    var n := InsertIndex(s.queue, work.priority);
    forall k | 0 <= k < |s'.queue|
      ensures s'.queue[k].retryCount == 0 ==> s'.queue[k].scheduledAt <= at
    {
      assert s'.queue[k] == if k < n then s.queue[k] else if k == n then e else s.queue[k - 1];
    }
  }

  lemma DrainInOrder(config: Config, s: State, clock: int, now: int)
    requires InOrder(s, clock) && clock <= now
    ensures InOrder(Drain(config, s, now), now)
  {
    DrainCases(config, s, now);
    if Drain(config, s, now) != s {
      PopOrdered(s.queue);
    }
  }

  lemma UnparkInOrder(s: State, clock: int, e: Entry)
    requires InOrder(s, clock) && e in s.parked
    ensures InOrder(Unpark(s, e), clock)
  {
    UnshiftOrdered(s.queue, e);
  }

  lemma HandleErrorInOrder(config: Config, s: State, clock: int, t: nat, route: Route, error: ExecutionError, draw: Jitter, now: int)
    requires InOrder(s, clock) && t in s.attempts
    ensures InOrder(HandleError(config, s, t, route, error, draw, now), clock)
  {
    if ShouldRetry(s.attempts[t].entry, error) {
      var s' := PushRetry(config, s, t, route, draw, now);
      UnshiftOrdered(s.queue, s'.queue[0]);
    }
  }

  lemma CancelInOrder(s: State, clock: int, executionId: string)
    requires InOrder(s, clock) && Gentle(s, CancelRequested(executionId))
    ensures InOrder(Cancel(s, executionId), clock)
  {
    var i := FindExecution(s.queue, executionId);
    if i >= 0 {
      SeamlessRemoval(s.queue, i);
      var rest := RemoveAt(s.queue, i);
      assert forall k | 0 <= k < |rest| :: rest[k] == s.queue[if k < i then k else k + 1];
    }
  }

  lemma LaterInOrder(s: State, clock: int, now: int)
    requires InOrder(s, clock) && clock <= now
    ensures InOrder(s, now)
  {
  }

  lemma RejectInOrder(config: Config, s: State, clock: int, t: nat, error: ExecutionError, draw: Jitter, now: int)
    requires InOrder(s, clock) && t in s.attempts
    ensures InOrder(Reject(config, s, t, error, draw, now), clock)
  {
    var freed := ReleaseSlot(s, s.attempts[t].entry.work.executionId);
    assert InOrder(freed, clock);
    HandleErrorInOrder(config, freed, clock, t, ByPromise, error, draw, now);
  }

  lemma OtherDrainsInOrder(s: State, clock: int, n: nat)
    requires InOrder(s, clock)
    ensures InOrder(s.(drains := n), clock)
  {
  }

  lemma ScheduleInOrder(config: Config, s: State, clock: int, e: Event)
    requires Inv(config, s) && InOrder(s, clock) && Enabled(s, e)
    requires e.Enqueue? || e.DrainTick? || e.Wake?
    requires clock <= Begins(e) <= e.now
    ensures InOrder(Step(config, s, e), e.now)
  {
    hide InOrder;
    match e
    case Enqueue(work, at, now) =>
      InsertInOrder(config, s, clock, work, at);
      DrainInOrder(config, Insert(s, work, at), at, now);
    case DrainTick(now) =>
      OtherDrainsInOrder(s, clock, s.drains - 1);
      DrainInOrder(config, s.(drains := s.drains - 1), clock, now);
    case Wake(entry, now) =>
      UnparkInOrder(s, clock, entry);
      DrainInOrder(config, Unpark(s, entry), clock, now);
  }

  lemma PhaseInOrder(config: Config, s: State, clock: int, e: Event)
    requires InOrder(s, clock) && Enabled(s, e) && !Timed(e) && !e.CancelRequested?
    ensures InOrder(Step(config, s, e), clock)
  {
  }

  lemma StepInOrder(config: Config, s: State, clock: int, e: Event)
    requires Inv(config, s) && InOrder(s, clock) && Enabled(s, e) && Gentle(s, e)
    requires Timed(e) ==> clock <= Begins(e) <= e.now
    ensures InOrder(Step(config, s, e), if Timed(e) then e.now else clock)
  {
    hide Inv, InOrder;
    match e
    case Enqueue(_, _, _) => ScheduleInOrder(config, s, clock, e);
    case DrainTick(_) => ScheduleInOrder(config, s, clock, e);
    case Wake(_, _) => ScheduleInOrder(config, s, clock, e);
    case Rejected(t, error, draw, now) =>
      RejectInOrder(config, s, clock, t, error, draw, now);
      LaterInOrder(Step(config, s, e), clock, now);
    case TimeoutHandled(t, draw, now) =>
      HandleErrorInOrder(config, s, clock, t, ByTimer, TIMEOUT_ERROR, draw, now);
      LaterInOrder(Step(config, s, e), clock, now);
    case CancelRequested(executionId) => CancelInOrder(s, clock, executionId);
    case _ => PhaseInOrder(config, s, clock, e);
  }

  lemma {:induction false} RunInOrder(config: Config, start: int, run: seq<Event>)
    requires Monotone(start, run) && GentleRun(config, run)
    ensures InOrder(After(config, run), Clock(start, run))
  {
    if run != [] {
      var before := run[..|run| - 1];
      var e := run[|run| - 1];
      RunInOrder(config, start, before);
      RunKeeps(config, before);
      if Enabled(After(config, before), e) {
        StepInOrder(config, After(config, before), Clock(start, before), e);
      }
    }
  }

  lemma RoughCancelDisorders(config: Config, s: State, e: Event)
    requires Ordered(s.queue) && Enabled(s, e) && !Gentle(s, e)
    ensures !Ordered(Step(config, s, e).queue)
  {
    RemovalKeepsOrder(s.queue, FindExecution(s.queue, e.executionId));
  }

  // ---------------------------------------------------------------------------------
  // The theorems

  ghost predicate AlwaysOrdered(config: Config, run: seq<Event>) {
    forall n | 0 <= n <= |run| :: Ordered(After(config, run[..n]).queue)
  }

  /** Under a clock that never goes back, the stretches stay sorted exactly if no cancel joins two that do not fit. */
  lemma {:induction false} OrderedExactly(config: Config, start: int, run: seq<Event>)
    requires Monotone(start, run)
    ensures AlwaysOrdered(config, run) <==> GentleRun(config, run)
  {
    if run != [] {
      var before, e := run[..|run| - 1], run[|run| - 1];
      var s := After(config, before);
      OrderedExactly(config, start, before);
      OrderedSplit(config, run);
      if GentleRun(config, before) {
        if Gentle(s, e) {
          RunInOrder(config, start, run);
        } else {
          RunInOrder(config, start, before);
          RoughCancelDisorders(config, s, e);
        }
      }
    }
  }

  lemma OrderedSplit(config: Config, run: seq<Event>)
    requires run != []
    ensures AlwaysOrdered(config, run) <==> AlwaysOrdered(config, run[..|run| - 1]) && Ordered(After(config, run).queue)
  {
    hide After, Ordered;
    var before := run[..|run| - 1];
    assert run[..|run|] == run;
    if AlwaysOrdered(config, run) {
      forall n | 0 <= n <= |before|
        ensures Ordered(After(config, before[..n]).queue)
      {
        assert before[..n] == run[..n];
      }
    }
    if AlwaysOrdered(config, before) && Ordered(After(config, run).queue) {
      forall n | 0 <= n <= |run|
        ensures Ordered(After(config, run[..n]).queue)
      {
        assert n < |run| ==> before[..n] == run[..n];
      }
    }
  }

  /** Every stretch of first tries is sorted by priority, and by arrival among equals. */
  lemma {:induction false} StretchesSorted(config: Config, start: int, run: seq<Event>, i: nat, j: nat)
    requires Monotone(start, run) && GentleRun(config, run)
    ensures
      var queue := After(config, run).queue;
      i < j < |queue| && Stretch(queue, i, j) ==>
        || queue[i].work.priority > queue[j].work.priority
        || (queue[i].work.priority == queue[j].work.priority && queue[i].job < queue[j].job)
  {
    RunInOrder(config, start, run);
    hide Next;
    var queue := After(config, run).queue;
    if i < j < |queue| && Stretch(queue, i, j) {
      assert Before(queue[i], queue[j]);
    }
  }

  /** While no retry waits, the next entry taken is the one that a stable priority queue would pick. */
  lemma {:induction false} NextIsBest(config: Config, start: int, run: seq<Event>, best: Entry)
    requires Monotone(start, run) && GentleRun(config, run)
    ensures
      var queue := After(config, run).queue;
      queue != [] && (forall e | e in queue :: e.retryCount == 0) ==>
        (best == queue[0] <==> best in queue && forall e | e in queue && e != best :: Before(best, e))
  {
    RunInOrder(config, start, run);
    hide After;
    var queue := After(config, run).queue;
    if queue != [] && forall e | e in queue :: e.retryCount == 0 {
      forall k | 0 < k < |queue|
        ensures Before(queue[0], queue[k])
      {
        assert Stretch(queue, 0, k);
      }
      assert queue[0] in queue;
    }
  }
}
