/** Slots, attempts and retry times: what holds after every run of the queue. */
module QueueBounds {
  import opened Common
  import opened Backoff
  import opened QueueModel
  import opened QueueInvariant

  /** However events interleave, the slot table never outgrows the configured limit. */
  lemma {:induction false} SlotBound(config: Config, run: seq<Event>)
    ensures |After(config, run).running| <= config.maxConcurrent
  {
    RunKeeps(config, run);
  }

  // ---------------------------------------------------------------------------------
  // How many attempts one enqueue can cause

  /** The records that start an attempt of job j. */
  function Starts(log: seq<Record>, j: nat): set<int> {
    set k | 0 <= k < |log| && log[k].Started? && log[k].entry.job == j
  }

  /** Number of retries that a job is allowed; a negative setting allows none. */
  function Budget(work: Work): nat {
    Max(work.maxRetries, 0)
  }

  ghost predicate Rooted(issued: seq<Entry>) {
    forall t | 0 <= t < |issued| :: issued[t].origin.RetryOf? ==> issued[t].origin.parent < t
  }

  /** Position of an object in the binary tree of its job: 1 at the root, 2c and 2c+1 below c. */
  ghost function Code(issued: seq<Entry>, t: nat): nat
    requires Rooted(issued) && t < |issued|
  {
    match issued[t].origin
    case First => 1
    case RetryOf(parent, route) => 2 * Code(issued, parent) + if route.ByTimer? then 1 else 0
  }

  lemma ObjectsRooted(s: State)
    requires Objects(s)
    ensures Rooted(s.issued)
  {
    forall t | 0 <= t < |s.issued|
      ensures s.issued[t].origin.RetryOf? ==> s.issued[t].origin.parent < t
    {
      assert WellBorn(s, t);
    }
  }

  lemma {:induction false} CodeRange(s: State, t: nat)
    requires Objects(s) && Rooted(s.issued) && t < |s.issued|
    ensures Pow2(s.issued[t].retryCount) <= Code(s.issued, t) < Pow2(s.issued[t].retryCount + 1)
  {
    assert WellBorn(s, t);
    if s.issued[t].origin.RetryOf? {
      CodeRange(s, s.issued[t].origin.parent);
    }
  }

  /** Different objects of one job sit at different positions of its tree. */
  lemma {:induction false} CodeInjective(s: State, t: nat, u: nat)
    requires Objects(s) && OneBirth(s) && Rooted(s.issued)
    requires t < u < |s.issued| && s.issued[t].job == s.issued[u].job
    ensures Code(s.issued, t) != Code(s.issued, u)
    decreases u, t
  {
    assert WellBorn(s, t) && WellBorn(s, u) && Unrelated(s.issued[t], s.issued[u]);
    var a, b := s.issued[t].origin, s.issued[u].origin;
    if a.RetryOf? && b.RetryOf? && Code(s.issued, t) == Code(s.issued, u) {
      assert a.route == b.route;
      assert Code(s.issued, a.parent) == Code(s.issued, b.parent);
      if a.parent < b.parent {
        CodeInjective(s, a.parent, b.parent);
      } else if b.parent < a.parent {
        CodeInjective(s, b.parent, a.parent);
      }
    } else if a.RetryOf? {
      CodeRange(s, t);
    } else if b.RetryOf? {
      CodeRange(s, u);
    }
  }

  lemma StartCodes(config: Config, s: State, j: nat)
    requires Inv(config, s) && Rooted(s.issued) && j < |s.works|
    ensures forall k | k in Starts(s.log, j) ::
      s.log[k].entry.ticket < |s.issued|
      && 1 <= Code(s.issued, s.log[k].entry.ticket) <= Pow2(Budget(s.works[j]) + 1) - 1
    ensures forall k, l | k in Starts(s.log, j) && l in Starts(s.log, j) && k != l ::
      Code(s.issued, s.log[k].entry.ticket) != Code(s.issued, s.log[l].entry.ticket)
  {
    forall k | k in Starts(s.log, j)
      ensures Known(s, s.log[k].entry) && s.issued[s.log[k].entry.ticket].job == j
      ensures 1 <= Code(s.issued, s.log[k].entry.ticket) <= Pow2(Budget(s.works[j]) + 1) - 1
    {
      assert StartOk(s, k);
      var t := s.log[k].entry.ticket;
      assert WellBorn(s, t);
      CodeRange(s, t);
      Pow2Monotone(s.issued[t].retryCount + 1, Budget(s.works[j]) + 1);
    }
    forall k, l | k in Starts(s.log, j) && l in Starts(s.log, j) && k != l
      ensures Code(s.issued, s.log[k].entry.ticket) != Code(s.issued, s.log[l].entry.ticket)
    {
      var t, u := s.log[k].entry.ticket, s.log[l].entry.ticket;
      if k < l {
        assert SeparateStarts(s.log[k], s.log[l]);
      } else {
        assert SeparateStarts(s.log[l], s.log[k]);
      }
      if t < u {
        CodeInjective(s, t, u);
      } else {
        CodeInjective(s, u, t);
      }
    }
  }

  lemma CountStarts(s: State, j: nat, n: nat)
    requires Rooted(s.issued)
    requires forall k | k in Starts(s.log, j) ::
      s.log[k].entry.ticket < |s.issued| && 1 <= Code(s.issued, s.log[k].entry.ticket) <= n
    requires forall k, l | k in Starts(s.log, j) && l in Starts(s.log, j) && k != l ::
      Code(s.issued, s.log[k].entry.ticket) != Code(s.issued, s.log[l].entry.ticket)
    ensures |Starts(s.log, j)| <= n
  {
    var codes := map k | k in Starts(s.log, j) :: Code(s.issued, s.log[k].entry.ticket);
    assert codes.Keys == Starts(s.log, j);
    InjectionBound(codes, n);
  }

  lemma InvBoundsStarts(config: Config, s: State, j: nat)
    requires Inv(config, s) && j < |s.works|
    ensures |Starts(s.log, j)| <= Pow2(Budget(s.works[j]) + 1) - 1
  {
    ObjectsRooted(s);
    StartCodes(config, s, j);
    CountStarts(s, j, Pow2(Budget(s.works[j]) + 1) - 1);
  }

  /** In any run, one enqueue causes at most 2^(maxRetries+1) - 1 attempts. */
  lemma {:induction false} AttemptBound(config: Config, run: seq<Event>, j: nat)
    requires j < |After(config, run).works|
    ensures
      var s := After(config, run);
      |Starts(s.log, j)| <= Pow2(Budget(s.works[j]) + 1) - 1
  {
    hide Next;
    RunKeeps(config, run);
    InvBoundsStarts(config, After(config, run), j);
  }

  // ---------------------------------------------------------------------------------
  // When attempts start, and what they run

  /**
   Record k of a log, if it is a start, comes no earlier than it is due. With a base delay that
   is not negative, a retry numbered n starts only after a record of the error that caused it,
   and later than that error by the n-th backoff delay, less the fraction of a millisecond that
   a date cannot hold.
   */
  ghost predicate StartsInTime(config: Config, log: seq<Record>, k: nat) {
    k < |log| && log[k].Started? ==>
      var e := log[k].entry;
      && log[k].at >= e.scheduledAt
      && (e.retryCount > 0 && config.Valid() ==>
            exists c | 0 <= c < k ::
              && log[c].Retrying? && log[c].entry == e
              && log[k].at as real
                   > log[c].at as real - 1.0
                     + MinReal(Exponential(config.retryDelayBase, e.retryCount), config.retryDelayMax))
  }

  /** In any run every attempt starts in time, however often its entry was popped, parked and queued again. */
  lemma {:induction false} RetrySpacing(config: Config, run: seq<Event>, k: nat)
    ensures StartsInTime(config, After(config, run).log, k)
  {
    var s := After(config, run);
    RunKeeps(config, run);
    if k < |s.log| && s.log[k].Started? {
      var e := s.log[k].entry;
      assert StartOk(s, k);
      if e.retryCount > 0 && config.Valid() {
        RunReasons(config, run);
        assert Explained(config, s.log[..k], e);
        var c :| 0 <= c < k && MadeBy(config, s.log[..k], c, e);
        assert s.log[..k][c] == s.log[c];
      }
    }
  }

  /**
   Record k of a log, if it is a retry, waits within the bounds of its backoff: at least the
   base doubled with each retry before, at most a tenth longer, and never longer than the cap.
   The entry is due when the delay is over, up to the millisecond that a date truncates.
   */
  ghost predicate WaitsInBounds(config: Config, log: seq<Record>, k: nat) {
    k < |log| && log[k].Retrying? && config.Valid() ==>
      var e, delay := log[k].entry, log[k].delay;
      && e.retryCount >= 1
      && var least := config.retryDelayBase * Pow2(e.retryCount - 1) as real;
         && (least <= delay || delay == config.retryDelayMax)
         && delay <= config.retryDelayMax
         && delay <= 1.1 * least
         && log[k].at as real + delay - 1.0 < e.scheduledAt as real <= log[k].at as real + delay
  }

  lemma {:induction false} RetryDelays(config: Config, run: seq<Event>, k: nat)
    ensures WaitsInBounds(config, After(config, run).log, k)
  {
    if config.Valid() {
      RunReasons(config, run);
      var log := After(config, run).log;
      hide Reasons, After;
      if k < |log| && log[k].Retrying? {
        RetryIsMade(config, After(config, run), k);
      }
    }
  }

  lemma RetryIsMade(config: Config, s: State, k: nat)
    requires Reasons(config, s) && k < |s.log| && s.log[k].Retrying?
    ensures MadeBy(config, s.log, k, s.log[k].entry)
  {
  }

  /** Every attempt, first or retry, runs exactly the request that was enqueued for its job. */
  lemma {:induction false} AttemptsRunTheirRequest(config: Config, run: seq<Event>, k: nat)
    ensures
      var s := After(config, run);
      k < |s.log| && s.log[k].Started? ==>
        var e := s.log[k].entry;
        && e.job < |s.works|
        && e.work == s.works[e.job]
        && e.retryCount <= Budget(e.work)
  {
    var s := After(config, run);
    RunKeeps(config, run);
    if k < |s.log| && s.log[k].Started? {
      assert StartOk(s, k);
      assert WellBorn(s, s.log[k].entry.ticket);
    }
  }
}
