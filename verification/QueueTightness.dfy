/** The bound on attempts that holds in every run is reached, for any number of retries. */
module QueueTightness {
  import opened Common
  import opened QueueBounds
  import opened QueueInvariant
  import opened QueueModel
  import opened QueueOrder
  import opened QueueWitness

  /** A request of no importance; enqueuing one makes the service look at the head of the queue. */
  function Filler(n: nat): Work {
    Work(seq(n, i => 'x'), "w1", "u1", "{}", "{}", 1, 0, 300000)
  }

  /** A request that allows n retries. */
  function Persistent(n: nat): Work {
    Work("e1", "w1", "u1", "{}", "{}", n, 0, 300000)
  }

  const REQUEST: nat := 1

  /** The attempts of job j in a run. */
  function Attempts(run: seq<Event>, j: nat): nat {
    |Starts(After(ONE_SLOT, run).log, j)|
  }

  /** Nothing runs and no drain is scheduled; the run has come here under a clock that never goes back. */
  ghost predicate Poised(run: seq<Event>, n: nat, queue: seq<Entry>) {
    var s := After(ONE_SLOT, run);
    && s.queue == queue && s.running == map[] && s.drains == 0
    && |s.works| > REQUEST && s.works[REQUEST] == Persistent(n)
    && (forall e | e in queue :: e.work.priority == 0)
    && Monotone(0, run)
  }

  function FillerEntry(s: State, now: int): Entry {
    Entry(|s.issued|, |s.works|, First, Filler(|s.works|), 0, now)
  }

  /** With a filler, the head is started and the filler waits behind all others. */
  lemma FillerStarts(s: State, now: int)
    requires s.queue != [] && s.running == map[] && s.drains == 0
    requires s.queue[0].scheduledAt <= now && s.queue[0].ticket !in s.attempts
    requires forall e | e in s.queue :: e.work.priority == 0
    ensures
      var h, f := s.queue[0], FillerEntry(s, now);
      var s' := Next(ONE_SLOT, s, Enqueue(f.work, now, now));
      && JustStarted(ONE_SLOT, s', h.ticket) && s'.attempts[h.ticket].entry == h
      && s'.queue == s.queue[1..] + [f]
      && s'.works == s.works + [f.work] && s'.issued == s.issued + [f]
      && s'.log == s.log + [Enqueued(f), Started(h, now)]
  {
    var f := FillerEntry(s, now);
    assert InsertIndex(s.queue, 0) == |s.queue|;
    assert InsertAt(s.queue, |s.queue|, f) == s.queue + [f];
    assert (s.queue + [f])[1..] == s.queue[1..] + [f];
    assert s.log + [Enqueued(f)] + [Started(s.queue[0], now)] == s.log + [Enqueued(f), Started(s.queue[0], now)];
  }

  /** The head of the queue is started and given up, and its abandoned call fails. */
  function Round(s: State, now: int): seq<Event>
    requires s.queue != []
  {
    [Enqueue(Filler(|s.works|), now, now)] + GiveUp(s.queue[0].ticket, now, now + 300000)
  }

  lemma RoundForward(s: State, clock: int, now: int)
    requires s.queue != [] && clock <= now
    ensures Forward(clock, Round(s, now))
  {
    var t := s.queue[0].ticket;
    assert Round(s, now)[1..] == GiveUp(t, now, now + 300000);
    GiveUpForward(t, now, now + 300000);
  }

  /** The records of a round. */
  function RoundLog(s: State, now: int): seq<Record>
    requires s.queue != []
  {
    [Enqueued(FillerEntry(s, now)), Started(s.queue[0], now)]
    + TwoRecords(ONE_SLOT, |s.issued| + 1, s.queue[0], now + 300000)
  }

  lemma StartedEntry(s: State, h: Entry)
    requires JustStarted(ONE_SLOT, s, h.ticket)
    ensures h.ticket in s.attempts
  {
  }

  lemma RoundDone(s: State, now: int)
    requires s.queue != [] && s.running == map[] && s.drains == 0
    requires s.queue[0].scheduledAt <= now && s.queue[0].ticket !in s.attempts
    requires forall e | e in s.queue :: e.work.priority == 0
    ensures
      var f := FillerEntry(s, now);
      var s' := From(ONE_SLOT, s, Round(s, now));
      && s'.running == map[] && s'.drains == 0 && s'.works == s.works + [f.work]
      && s'.queue == TwoRetries(ONE_SLOT, |s.issued| + 1, s.queue[0], now + 300000) + (s.queue[1..] + [f])
      && s'.log == s.log + RoundLog(s, now)
  {
    hide Next, From, JustStarted, TwoRetries, TwoRecords, GiveUp, Filler;
    var h, f := s.queue[0], FillerEntry(s, now);
    var enqueue, gives := [Enqueue(f.work, now, now)], GiveUp(h.ticket, now, now + 300000);
    var started := Next(ONE_SLOT, s, enqueue[0]);
    FillerStarts(s, now);
    StartedEntry(started, h);
    GivenUp(ONE_SLOT, started, h.ticket, now, now + 300000);
    FromMore(ONE_SLOT, s, enqueue, gives);
    FromOne(ONE_SLOT, s, enqueue[0]);
    assert |started.issued| == |s.issued| + 1;
  }

  lemma OneMoreStart(log: seq<Record>, r: Record, j: nat)
    ensures Starts(log + [r], j) == Starts(log, j) + if r.Started? && r.entry.job == j then {|log|} else {}
    ensures |Starts(log + [r], j)| == |Starts(log, j)| + if r.Started? && r.entry.job == j then 1 else 0
  {
    forall k
      ensures k in Starts(log + [r], j) <==> k in Starts(log, j) || (r.Started? && r.entry.job == j && k == |log|)
    {
    }
  }

  lemma {:induction false} NoMoreStarts(log: seq<Record>, more: seq<Record>, j: nat)
    requires forall r | r in more :: !r.Started?
    ensures Starts(log + more, j) == Starts(log, j)
    decreases |more|
  {
    if more == [] {
      assert log + more == log;
    } else {
      assert log + more == log + [more[0]] + more[1..];
      OneMoreStart(log, more[0], j);
      NoMoreStarts(log + [more[0]], more[1..], j);
    }
  }

  /** A round starts one attempt of the head's job and no other. */
  lemma RoundStarts(s: State, now: int)
    requires s.queue != []
    ensures var h := s.queue[0]; |Starts(s.log + RoundLog(s, now), h.job)| == |Starts(s.log, h.job)| + 1
  {
    var h, f := s.queue[0], FillerEntry(s, now);
    var begun := s.log + [Enqueued(f)] + [Started(h, now)];
    var records := TwoRecords(ONE_SLOT, |s.issued| + 1, h, now + 300000);
    assert s.log + RoundLog(s, now) == begun + records;
    assert forall r | r in records :: !r.Started?;
    hide TwoRecords, Starts;
    OneMoreStart(s.log, Enqueued(f), h.job);
    OneMoreStart(s.log + [Enqueued(f)], Started(h, now), h.job);
    NoMoreStarts(begun, records, h.job);
  }

  /** One round from a poised run, after which the head's two retries are in front if it may be retried. */
  lemma PlayRound(run: seq<Event>, n: nat, h: Entry, rest: seq<Entry>)
    returns (longer: seq<Event>, retries: seq<Entry>, filler: Entry)
    requires Poised(run, n, [h] + rest)
    ensures Poised(longer, n, retries + rest + [filler])
    ensures Attempts(longer, h.job) == Attempts(run, h.job) + 1
    ensures |retries| == if h.retryCount < h.work.maxRetries then 2 else 0
    ensures forall e | e in retries :: e.job == h.job && e.work == h.work && e.retryCount == h.retryCount + 1
  {
    var s := After(ONE_SLOT, run);
    var clock := Clock(0, run);
    var now := Max(clock, h.scheduledAt);
    RunKeeps(ONE_SLOT, run);
    HeadFresh(ONE_SLOT, s);
    assert s.queue[0] == h && s.queue[1..] == rest;
    RoundDone(s, now);
    RoundStarts(s, now);
    RoundForward(s, clock, now);
    longer := run + Round(s, now);
    AfterMore(ONE_SLOT, run, Round(s, now));
    MonotoneMore(0, run, Round(s, now));
    hide Next, From, Inv, Round, RoundLog, Forward, Starts, Monotone, After;
    filler := FillerEntry(s, now);
    retries := TwoRetries(ONE_SLOT, |s.issued| + 1, h, now + 300000);
    assert retries + (rest + [filler]) == retries + rest + [filler];
  }

  /** The queue has h in front and at least `rest` behind it. */
  ghost predicate Ahead(run: seq<Event>, n: nat, h: Entry, rest: seq<Entry>) {
    exists more: seq<Entry> :: Poised(run, n, [h] + (rest + more))
  }

  ghost predicate Behind(run: seq<Event>, n: nat, rest: seq<Entry>) {
    exists more: seq<Entry> :: Poised(run, n, rest + more)
  }

  lemma RegroupNone(none: seq<Entry>, rest: seq<Entry>, more: seq<Entry>, last: Entry)
    requires none == []
    ensures none + (rest + more) + [last] == rest + (more + [last])
  {
  }

  lemma PlayLast(run: seq<Event>, n: nat, h: Entry, rest: seq<Entry>) returns (longer: seq<Event>)
    requires Ahead(run, n, h, rest) && h.retryCount == h.work.maxRetries
    ensures Behind(longer, n, rest)
    ensures Attempts(longer, h.job) == Attempts(run, h.job) + 1
  {
    var more: seq<Entry> :| Poised(run, n, [h] + (rest + more));
    hide Poised, Attempts;
    var retries, filler;
    longer, retries, filler := PlayRound(run, n, h, rest + more);
    RegroupNone(retries, rest, more, filler);
  }

  lemma Regroup(two: seq<Entry>, rest: seq<Entry>, more: seq<Entry>, last: Entry)
    requires |two| == 2
    ensures two + (rest + more) + [last] == [two[0]] + ([two[1]] + rest + (more + [last]))
  {
  }

  lemma PlayInner(run: seq<Event>, n: nat, h: Entry, rest: seq<Entry>)
    returns (longer: seq<Event>, first: Entry, second: Entry)
    requires Ahead(run, n, h, rest) && h.retryCount < h.work.maxRetries
    ensures Ahead(longer, n, second, [first] + rest)
    ensures Attempts(longer, h.job) == Attempts(run, h.job) + 1
    ensures first.job == h.job && first.work == h.work && first.retryCount == h.retryCount + 1
    ensures second.job == h.job && second.work == h.work && second.retryCount == h.retryCount + 1
  {
    var more: seq<Entry> :| Poised(run, n, [h] + (rest + more));
    hide Poised, Attempts;
    var played, retries, filler := PlayRound(run, n, h, rest + more);
    longer, second, first := played, retries[0], retries[1];
    assert first in retries && second in retries;
    Regroup(retries, rest, more, filler);
  }

  lemma BehindIsAhead(run: seq<Event>, n: nat, h: Entry, rest: seq<Entry>)
    requires Behind(run, n, [h] + rest)
    ensures Ahead(run, n, h, rest)
  {
    var more: seq<Entry> :| Poised(run, n, [h] + rest + more);
    hide Poised;
    assert [h] + rest + more == [h] + (rest + more);
  }

  /** Every attempt below the head is started before anything behind the head. */
  lemma {:induction false} Explore(run: seq<Event>, n: nat, h: Entry, rest: seq<Entry>) returns (longer: seq<Event>)
    requires Ahead(run, n, h, rest) && h.retryCount <= h.work.maxRetries
    ensures Behind(longer, n, rest)
    ensures Attempts(longer, h.job) == Attempts(run, h.job) + Pow2(h.work.maxRetries - h.retryCount + 1) - 1
    decreases h.work.maxRetries - h.retryCount
  {
    hide *;
    PowerSum(h.work.maxRetries - h.retryCount);
    if h.retryCount == h.work.maxRetries {
      longer := PlayLast(run, n, h, rest);
    } else {
      var played, first, second := PlayInner(run, n, h, rest);
      var once := Explore(played, n, second, [first] + rest);
      BehindIsAhead(once, n, first, rest);
      longer := Explore(once, n, first, rest);
    }
  }

  lemma PowerSum(m: nat)
    ensures Pow2(m + 1) - 1 == 1 + (Pow2(m) - 1) + (Pow2(m) - 1)
    ensures Pow2(0) == 1
  {
  }

  /** A filler holds the slot until the request is in the queue. */
  function Opening(n: nat): seq<Event> {
    [Enqueue(Filler(0), 0, 0), Enqueue(Persistent(n), 0, 0), DrainTick(0), TimerFired(0)]
  }

  function RequestEntry(n: nat): Entry {
    Entry(1, REQUEST, First, Persistent(n), 0, 0)
  }

  /** The slot is taken while the request arrives. */
  lemma OpeningFull(n: nat)
    ensures
      var s := From(ONE_SLOT, INITIAL, Opening(n)[..2]);
      && s.queue == [RequestEntry(n)] && s.running == map[Filler(0).executionId := 0] && s.drains == 1
      && 0 in s.attempts && s.attempts[0].timer == Armed && s.attempts[0].entry.work == Filler(0)
      && s.works == [Filler(0), Persistent(n)] && Starts(s.log, REQUEST) == {}
  {
    var filler := Entry(0, 0, First, Filler(0), 0, 0);
    var s1 := Next(ONE_SLOT, INITIAL, Opening(n)[0]);
    assert InsertAt([], 0, filler) == [filler];
    assert s1 == Start(Insert(INITIAL, Filler(0), 0).(queue := []), filler, 0).(drains := 1);
    assert Opening(n)[..2] == [Opening(n)[0], Opening(n)[1]];
    FromTwo(ONE_SLOT, INITIAL, Opening(n)[0], Opening(n)[1]);
    assert InsertAt([], 0, RequestEntry(n)) == [RequestEntry(n)];
  }

  lemma OpeningForward(n: nat)
    ensures Forward(0, Opening(n))
  {
    var run := Opening(n);
    assert run[1..][1..][1..] == [TimerFired(0)];
    assert Forward(0, [TimerFired(0)]);
    assert Forward(0, run[1..][1..]);
    assert Forward(0, run[1..]);
  }

  /** Then the filler times out and leaves the slot. */
  lemma Opened(n: nat)
    ensures Poised(Opening(n), n, [RequestEntry(n)])
    ensures Attempts(Opening(n), REQUEST) == 0
  {
    OpenedState(n);
    OpeningForward(n);
    ForwardIsMonotone(Opening(n));
    hide After, Starts, Monotone, Opening;
  }

  lemma OpenedState(n: nat)
    ensures
      var s := After(ONE_SLOT, Opening(n));
      && s.queue == [RequestEntry(n)] && s.running == map[] && s.drains == 0
      && s.works == [Filler(0), Persistent(n)] && Starts(s.log, REQUEST) == {}
  {
    var first, second := Opening(n)[..2], [DrainTick(0), TimerFired(0)];
    var full := From(ONE_SLOT, INITIAL, first);
    OpeningFull(n);
    SlotLeft(full);
    hide Next, From, Filler, Persistent, Starts;
    assert Opening(n) == first + second;
    AfterFrom(ONE_SLOT, Opening(n));
    FromMore(ONE_SLOT, INITIAL, first, second);
  }

  lemma SlotLeft(s: State)
    requires s.running == map[Filler(0).executionId := 0] && s.drains == 1
    requires 0 in s.attempts && s.attempts[0].timer == Armed && s.attempts[0].entry.work == Filler(0)
    ensures
      var s' := From(ONE_SLOT, s, [DrainTick(0), TimerFired(0)]);
      s'.queue == s.queue && s'.running == map[] && s'.drains == 0 && s'.works == s.works && s'.log == s.log
  {
    FromTwo(ONE_SLOT, s, DrainTick(0), TimerFired(0));
    assert Next(ONE_SLOT, s, DrainTick(0)) == s.(drains := 0);
    assert s.running - {Filler(0).executionId} == map[];
  }

  /** A run in which one request with n retries is started as often as any run can start it. */
  ghost predicate ReachesBound(run: seq<Event>, n: nat) {
    var s := After(ONE_SLOT, run);
    && Monotone(0, run)
    && |s.works| > REQUEST && s.works[REQUEST].maxRetries == n
    && |Starts(s.log, REQUEST)| == Pow2(n + 1) - 1
  }

  lemma BehindReaches(run: seq<Event>, n: nat)
    requires Behind(run, n, []) && Attempts(run, REQUEST) == Pow2(n + 1) - 1
    ensures ReachesBound(run, n)
  {
  }

  lemma RequestAhead(n: nat)
    ensures Ahead(Opening(n), n, RequestEntry(n), []) && Attempts(Opening(n), REQUEST) == 0
    ensures var h := RequestEntry(n); h.job == REQUEST && h.retryCount == 0 && h.work.maxRetries == n
  {
    Opened(n);
    hide Poised, Attempts, Opening;
    assert [RequestEntry(n)] + ([] + []) == [RequestEntry(n)];
  }

  /** The bound on attempts that holds in every run is reached for every number of retries. */
  lemma BoundIsReached(n: nat)
    ensures exists run: seq<Event> :: ReachesBound(run, n)
  {
    RequestAhead(n);
    hide *;
    var run := Explore(Opening(n), n, RequestEntry(n), []);
    BehindReaches(run, n);
  }
}
