/**
 Retry levels. An attempt whose call was given up can still fail, and may then be retried by
 both of its routes. A job has one object on each retry level, and so at most maxRetries + 1
 attempts, as long as none of its attempts is.
 */
module QueueRetries {
  import opened Common
  import opened QueueModel
  import opened QueueInvariant
  import opened QueueBounds
  import opened QueuePlaces

  /** Of two objects of job j, the later one is at a higher retry level. */
  predicate Climbs(e: Entry, later: Entry, j: nat) {
    e.job == j && later.job == j ==> e.retryCount < later.retryCount
  }

  ghost predicate Chain(issued: seq<Entry>, j: nat) {
    forall t, u {:trigger Climbs(issued[t], issued[u], j)} | 0 <= t < u < |issued| :: Climbs(issued[t], issued[u], j)
  }

  /** Attempt t has left a retry behind. */
  predicate Retried(s: State, t: nat) {
    exists u | 0 <= u < |s.issued| :: s.issued[u].origin.RetryOf? && s.issued[u].origin.parent == t
  }

  /** The event retries no attempt of job j that was retried before. */
  predicate Fresh(s: State, e: Event, j: nat) {
    Retries(s, e) && s.attempts[e.t].entry.job == j ==> !Retried(s, e.t)
  }

  predicate FreshRun(config: Config, run: seq<Event>, j: nat) {
    run == []
    || (var s, e := After(config, run[..|run| - 1]), run[|run| - 1];
        FreshRun(config, run[..|run| - 1], j) && (Enabled(s, e) ==> Fresh(s, e, j)))
  }

  /** If a job has an object later than t, then t was retried. */
  lemma {:induction false} LaterMeansRetried(s: State, t: nat, u: nat, j: nat)
    requires Objects(s) && Chain(s.issued, j) && t < u < |s.issued| && s.issued[t].job == j == s.issued[u].job
    ensures Retried(s, t)
    decreases u
  {
    assert WellBorn(s, u) && Climbs(s.issued[t], s.issued[u], j);
    var p := s.issued[u].origin.parent;
    assert p < t ==> Climbs(s.issued[p], s.issued[t], j);
    if p > t {
      LaterMeansRetried(s, t, p, j);
    }
  }

  /** A new object of attempt t's job, one level up, is above all others exactly if t was not retried before. */
  lemma RetryClimbs(s: State, t: nat, retry: Entry, j: nat)
    requires Objects(s) && Slots(s) && Chain(s.issued, j) && t in s.attempts
    requires retry.job == s.attempts[t].entry.job == j && retry.retryCount == s.attempts[t].entry.retryCount + 1
    ensures Chain(s.issued + [retry], j) <==> !Retried(s, t)
  {
    var longer := s.issued + [retry];
    if Retried(s, t) {
      var u :| 0 <= u < |s.issued| && s.issued[u].origin.RetryOf? && s.issued[u].origin.parent == t;
      assert WellBorn(s, u);
      assert longer[u] == s.issued[u];
      assert !Climbs(longer[u], longer[|s.issued|], j);
    } else {
      forall u, v | 0 <= u < v < |longer|
        ensures Climbs(longer[u], longer[v], j)
      {
        if v < |s.issued| {
          assert Climbs(s.issued[u], s.issued[v], j);
        } else if longer[u].job == j {
          if u < t {
            assert Climbs(s.issued[u], s.issued[t], j);
          } else if u > t {
            LaterMeansRetried(s, t, u, j);
          }
        }
      }
    }
  }

  /** An object of another job, or the first of job j, changes nothing. */
  lemma OtherClimbs(s: State, e: Entry, j: nat)
    requires Objects(s) && (e.job == j ==> j == |s.works|)
    ensures Chain(s.issued + [e], j) <==> Chain(s.issued, j)
  {
    var longer := s.issued + [e];
    if Chain(longer, j) {
      ChainBefore(s.issued, longer, j);
    }
    if Chain(s.issued, j) {
      forall u, v | 0 <= u < v < |longer|
        ensures Climbs(longer[u], longer[v], j)
      {
        assert WellBorn(s, u);
        if v < |s.issued| {
          assert Climbs(s.issued[u], s.issued[v], j);
        }
      }
    }
  }

  /** The objects that an event makes. */
  lemma Makes(config: Config, s: State, e: Event)
    requires Enabled(s, e)
    ensures var s' := Step(config, s, e);
      if e.Enqueue? then s'.issued == s.issued + [Entry(|s.issued|, |s.works|, First, e.work, 0, e.at)]
      else if Retries(s, e) then
        && |s'.issued| == |s.issued| + 1
        && s'.issued == s.issued + [s'.issued[|s.issued|]]
        && s'.issued[|s.issued|].job == s.attempts[e.t].entry.job
        && s'.issued[|s.issued|].retryCount == s.attempts[e.t].entry.retryCount + 1
      else s'.issued == s.issued
  {
  }

  /** An event keeps a job to one object a level exactly if it retries no attempt of the job again. */
  lemma StepClimbs(config: Config, s: State, e: Event, j: nat)
    requires Inv(config, s) && Chain(s.issued, j) && Enabled(s, e)
    ensures Chain(Step(config, s, e).issued, j) <==> Fresh(s, e, j)
  {
    Makes(config, s, e);
    hide Step, Chain;
    var s' := Step(config, s, e);
    if e.Enqueue? {
      OtherClimbs(s, s'.issued[|s.issued|], j);
    } else if Retries(s, e) {
      if s.attempts[e.t].entry.job == j {
        RetryClimbs(s, e.t, s'.issued[|s.issued|], j);
      } else {
        OtherClimbs(s, s'.issued[|s.issued|], j);
      }
    }
  }

  lemma ChainBefore(issued: seq<Entry>, longer: seq<Entry>, j: nat)
    requires issued <= longer && Chain(longer, j)
    ensures Chain(issued, j)
  {
    forall u, v | 0 <= u < v < |issued|
      ensures Climbs(issued[u], issued[v], j)
    {
      assert Climbs(longer[u], longer[v], j);
    }
  }

  /** The objects of a job are on different retry levels exactly if none of its attempts is retried by both routes. */
  lemma {:induction false} LevelsClimb(config: Config, run: seq<Event>, j: nat)
    ensures Chain(After(config, run).issued, j) <==> FreshRun(config, run, j)
  {
    if run != [] {
      var before, e := run[..|run| - 1], run[|run| - 1];
      var s := After(config, before);
      LevelsClimb(config, before, j);
      RunKeeps(config, before);
      if Enabled(s, e) {
        Makes(config, s, e);
        hide Step, Chain;
        if Chain(s.issued, j) {
          StepClimbs(config, s, e, j);
        } else if Chain(Step(config, s, e).issued, j) {
          ChainBefore(s.issued, Step(config, s, e).issued, j);
        }
      }
    }
  }

  lemma StartLevels(config: Config, s: State, j: nat)
    requires Inv(config, s) && Chain(s.issued, j) && j < |s.works|
    ensures forall k | k in Starts(s.log, j) :: 1 <= s.log[k].entry.retryCount + 1 <= Budget(s.works[j]) + 1
    ensures forall k, l | k in Starts(s.log, j) && l in Starts(s.log, j) && k != l ::
      s.log[k].entry.retryCount != s.log[l].entry.retryCount
  {
    forall k | k in Starts(s.log, j)
      ensures Known(s, s.log[k].entry) && s.log[k].entry.retryCount <= Budget(s.works[j])
    {
      assert StartOk(s, k);
      assert WellBorn(s, s.log[k].entry.ticket);
    }
    forall k, l | k in Starts(s.log, j) && l in Starts(s.log, j) && k < l
      ensures s.log[k].entry.retryCount != s.log[l].entry.retryCount
    {
      var t, u := s.log[k].entry.ticket, s.log[l].entry.ticket;
      assert SeparateStarts(s.log[k], s.log[l]);
      assert t < u ==> Climbs(s.issued[t], s.issued[u], j);
      assert u < t ==> Climbs(s.issued[u], s.issued[t], j);
    }
  }

  lemma ChainBoundsStarts(config: Config, s: State, j: nat)
    requires Inv(config, s) && Chain(s.issued, j) && j < |s.works|
    ensures |Starts(s.log, j)| <= Budget(s.works[j]) + 1
  {
    StartLevels(config, s, j);
    var levels := map k | k in Starts(s.log, j) :: s.log[k].entry.retryCount + 1;
    assert levels.Keys == Starts(s.log, j);
    InjectionBound(levels, Budget(s.works[j]) + 1);
  }

  /** If no attempt of a job is retried by both of its routes, the job gets at most maxRetries + 1 attempts. */
  lemma {:induction false} OnceRetriedBound(config: Config, run: seq<Event>, j: nat)
    requires FreshRun(config, run, j)
    ensures
      var s := After(config, run);
      j < |s.works| ==> |Starts(s.log, j)| <= Budget(s.works[j]) + 1
  {
    hide Next;
    LevelsClimb(config, run, j);
    RunKeeps(config, run);
    if j < |After(config, run).works| {
      ChainBoundsStarts(config, After(config, run), j);
    }
  }
}
