/** The execution queue as an object whose methods are the stretches between awaits. */
module ExecutionQueue {
  import opened Backoff
  import opened Common
  import opened QueueBounds
  import opened QueueContracts
  import opened QueueModel

  class ExecutionQueueService {
    const config: Config

    // The service's own fields
    var queue: seq<Entry>
    var runningExecutions: map<string, nat>

    // What the event loop holds on the service's behalf
    var attempts: map<nat, Attempt>
    var parked: set<Entry>
    var drains: nat
    var cancels: seq<CancelCall>

    // History
    var works: seq<Work>
    var issued: seq<Entry>
    var log: seq<Record>

    /** The events that the event loop has delivered so far. */
    ghost var run: seq<Event>

    function Snapshot(): State
      reads this
    {
      State(queue, runningExecutions, attempts, parked, drains, cancels, works, issued, log)
    }

    /** The object is where its run has brought the state machine. */
    ghost predicate Valid()
      reads this
    {
      Snapshot() == After(config, run)
    }

    /** Slots and attempts are within their limits. */
    ghost predicate WithinBounds()
      reads this
    {
      && |runningExecutions| <= config.maxConcurrent
      && forall j | 0 <= j < |works| :: |Starts(log, j)| <= Pow2(Budget(works[j]) + 1) - 1
    }

    lemma ValidIsBounded()
      requires Valid()
      ensures WithinBounds()
    {
      SlotBound(config, run);
      hide After;
      forall j | 0 <= j < |works|
        ensures |Starts(log, j)| <= Pow2(Budget(works[j]) + 1) - 1
      {
        AttemptBound(config, run, j);
      }
    }

    /** One more event keeps the object valid if its stretch is what the state machine does. */
    lemma Delivered(before: State, earlier: seq<Event>, e: Event)
      requires before == After(config, earlier) && run == earlier + [e] && Snapshot() == Next(config, before, e)
      ensures Valid() && WithinBounds()
    {
      assert run[..|earlier|] == earlier;
      ValidIsBounded();
    }

    constructor (options: Options)
      ensures config == Configure(options)
      ensures Snapshot() == INITIAL && run == [] && Valid()
    {
      config := Configure(options);
      queue, runningExecutions := [], map[];
      attempts, parked, drains, cancels := map[], {}, 0, [];
      works, issued, log, run := [], [], [], [];
    }

    /** The status tells exactly whether a drain has anything to do: something is queued and a slot is free. */
    method GetQueueStatus() returns (queueLength: nat, running: nat, maxConcurrent: nat)
      requires Valid()
      ensures queueLength == |queue| && running == |runningExecutions| && maxConcurrent == config.maxConcurrent
      ensures running <= maxConcurrent
      ensures queueLength == 0 || running == maxConcurrent <==> forall now :: Drain(config, Snapshot(), now) == Snapshot()
    {
      ValidIsBounded();
      assert queue != [] ==> |Drain(config, Snapshot(), 0).queue| < |queue| || |runningExecutions| >= config.maxConcurrent;
      queueLength, running, maxConcurrent := |queue|, |runningExecutions|, config.maxConcurrent;
    }

    method Enqueue(executionId: string, workflowId: string, userId: string, definition: string, inputData: string,
                   priority: Option<int>, timeout: Option<int>, maxRetries: Option<int>, at: int, now: int)
      requires Valid()
      modifies this
      ensures |works| == |old(works)| + 1
      ensures
        var work := works[|old(works)|];
        && work.executionId == executionId && work.workflowId == workflowId && work.userId == userId
        && work.definition == definition && work.inputData == inputData
        && Accepts(config, work, priority, timeout, maxRetries)
        && run == old(run) + [QueueModel.Enqueue(work, at, now)]
        && Does(config, old(Snapshot()), QueueModel.Enqueue(work, at, now), Snapshot())
      ensures Valid() && WithinBounds()
    {
      var work := WorkFor(config, executionId, workflowId, userId, definition, inputData, priority, timeout, maxRetries);
      hide Does;
      Accept(work, at, now);
    }

    method Accept(work: Work, at: int, now: int)
      requires Valid()
      modifies this
      ensures works == old(works) + [work]
      ensures run == old(run) + [QueueModel.Enqueue(work, at, now)] && Valid() && WithinBounds()
      ensures Does(config, old(Snapshot()), QueueModel.Enqueue(work, at, now), Snapshot())
    {
      var queuedExecution := Entry(|issued|, |works|, First, work, 0, at);
      var insertIndex := FindLower(queue, work.priority);
      if insertIndex == -1 {
        assert queue + [queuedExecution] == InsertAt(queue, |queue|, queuedExecution);
        queue := queue + [queuedExecution];
      } else {
        queue := queue[..insertIndex] + [queuedExecution] + queue[insertIndex..];
      }
      works := works + [work];
      issued := issued + [queuedExecution];
      log := log + [Enqueued(queuedExecution)];
      ProcessQueue(now);
      Note(old(Snapshot()), QueueModel.Enqueue(work, at, now));
    }

    /** Records which event the stretch that ends here was. */
    ghost method Note(before: State, e: Event)
      requires before == After(config, run) && Snapshot() == Next(config, before, e)
      modifies this`run
      ensures run == old(run) + [e] && Valid() && WithinBounds()
      ensures Enabled(before, e) ==> Does(config, before, e, Snapshot())
    {
      run := run + [e];
      Delivered(before, old(run), e);
      if Enabled(before, e) {
        StepDoes(config, before, e, Snapshot());
      }
    }

    method ProcessQueue(now: int)
      modifies this
      ensures Snapshot() == Drain(config, old(Snapshot()), now) && run == old(run)
      ensures Drained(config, old(Snapshot()), Snapshot(), now)
    {
      if |runningExecutions| >= config.maxConcurrent {
        return;
      }
      if |queue| == 0 {
        return;
      }
      var nextExecution := queue[0];
      queue := queue[1..];
      if nextExecution.scheduledAt > now {
        parked := parked + {nextExecution};
        return;
      }
      ExecuteWorkflow(nextExecution, now);
      drains := drains + 1;
    }

    /** A drain scheduled with `setImmediate` runs. */
    method RunScheduledDrain(now: int)
      requires Valid() && drains > 0
      modifies this
      ensures run == old(run) + [DrainTick(now)] && Valid() && WithinBounds()
      ensures Does(config, old(Snapshot()), DrainTick(now), Snapshot())
    {
      drains := drains - 1;
      ProcessQueue(now);
      Note(old(Snapshot()), DrainTick(now));
    }

    /** The timer of a parked entry fires. */
    method Unpark(entry: Entry, now: int)
      requires Valid() && entry in parked
      modifies this
      ensures run == old(run) + [Wake(entry, now)] && Valid() && WithinBounds()
      ensures Does(config, old(Snapshot()), Wake(entry, now), Snapshot())
    {
      parked := parked - {entry};
      queue := [entry] + queue;
      ProcessQueue(now);
      Note(old(Snapshot()), Wake(entry, now));
    }

    /** `executeWorkflow` up to its first await. */
    method ExecuteWorkflow(queuedExecution: Entry, now: int)
      modifies this
      ensures Snapshot() == Start(old(Snapshot()), queuedExecution, now) && run == old(run)
    {
      log := log + [Started(queuedExecution, now)];
      attempts := attempts[queuedExecution.ticket := Attempt(queuedExecution, WritingRunning, Armed)];
      runningExecutions := runningExecutions[queuedExecution.work.executionId := queuedExecution.ticket];
    }

    method ClearTimeoutHandle(handle: nat)
      modifies this`attempts
      ensures attempts == ClearTimeout(old(attempts), handle)
      ensures Disarms(old(attempts), attempts, handle)
    {
      if handle in attempts && attempts[handle].timer == Armed {
        attempts := attempts[handle := attempts[handle].(timer := Disarmed)];
      }
    }

    method OnRunningWritten(t: nat)
      requires Valid() && t in attempts && attempts[t].promise == WritingRunning
      modifies this
      ensures run == old(run) + [RunningWritten(t)] && Valid() && WithinBounds()
      ensures Does(config, old(Snapshot()), RunningWritten(t), Snapshot())
    {
      attempts := attempts[t := attempts[t].(promise := Calling)];
      Note(old(Snapshot()), RunningWritten(t));
    }

    method OnCallResolved(t: nat)
      requires Valid() && t in attempts && attempts[t].promise == Calling
      modifies this
      ensures run == old(run) + [CallResolved(t)] && Valid() && WithinBounds()
      ensures Does(config, old(Snapshot()), CallResolved(t), Snapshot())
    {
      ClearTimeoutHandle(t);
      runningExecutions := runningExecutions - {attempts[t].entry.work.executionId};
      attempts := attempts[t := attempts[t].(promise := WritingSuccess)];
      Note(old(Snapshot()), CallResolved(t));
    }

    method OnSuccessWritten(t: nat)
      requires Valid() && t in attempts && attempts[t].promise == WritingSuccess
      modifies this
      ensures run == old(run) + [SuccessWritten(t)] && Valid() && WithinBounds()
      ensures Does(config, old(Snapshot()), SuccessWritten(t), Snapshot())
    {
      attempts := attempts[t := attempts[t].(promise := Settled)];
      log := log + [Completed(attempts[t].entry.job)];
      Note(old(Snapshot()), SuccessWritten(t));
    }

    /** The catch block of `executeWorkflow`. */
    method OnError(t: nat, error: ExecutionError, draw: Jitter, now: int)
      requires Valid() && t in attempts && attempts[t].promise in {WritingRunning, Calling, WritingSuccess}
      modifies this
      ensures run == old(run) + [Rejected(t, error, draw, now)] && Valid() && WithinBounds()
      ensures Does(config, old(Snapshot()), Rejected(t, error, draw, now), Snapshot())
      ensures
        var e := old(attempts[t]).entry;
        if error in {AppError(VALIDATION_ERROR), AppError(INVALID_INPUT), AppError(UNAUTHORIZED), AppError(FORBIDDEN)}
           || e.retryCount >= e.work.maxRetries
        then queue == old(queue) && issued == old(issued) && t in attempts && attempts[t].promise == WritingFailed
        else |issued| == |old(issued)| + 1 && queue == [issued[|old(issued)|]] + old(queue)
    {
      hide After, ErrorHandled, Disarms;
      var executionId := attempts[t].entry.work.executionId;
      if executionId in runningExecutions {
        ClearTimeoutHandle(runningExecutions[executionId]);
        runningExecutions := runningExecutions - {executionId};
      }
      HandleExecutionError(t, ByPromise, error, draw, now);
      ErrorsAreClassified(config, old(Snapshot()), t, error, draw, now);
      hide Does, HandleError, ReleaseSlot;
      Note(old(Snapshot()), Rejected(t, error, draw, now));
    }

    /** `handleExecutionTimeout` up to its first await. */
    method OnTimerFired(t: nat)
      requires Valid() && t in attempts && attempts[t].timer == Armed
      modifies this
      ensures run == old(run) + [TimerFired(t)] && Valid() && WithinBounds()
      ensures Does(config, old(Snapshot()), TimerFired(t), Snapshot())
    {
      runningExecutions := runningExecutions - {attempts[t].entry.work.executionId};
      attempts := attempts[t := attempts[t].(timer := CancellingCall)];
      Note(old(Snapshot()), TimerFired(t));
    }

    /** The rest of `handleExecutionTimeout`, whether n8n could be asked to stop or not. */
    method OnTimeoutHandled(t: nat, draw: Jitter, now: int)
      requires Valid() && t in attempts && attempts[t].timer == CancellingCall
      modifies this
      ensures run == old(run) + [TimeoutHandled(t, draw, now)] && Valid() && WithinBounds()
      ensures Does(config, old(Snapshot()), TimeoutHandled(t, draw, now), Snapshot())
    {
      HandleExecutionError(t, ByTimer, TIMEOUT_ERROR, draw, now);
      Note(old(Snapshot()), TimeoutHandled(t, draw, now));
    }

    /** `handleExecutionError` up to its first await. */
    method HandleExecutionError(t: nat, route: Route, error: ExecutionError, draw: Jitter, now: int)
      requires t in attempts
      modifies this
      ensures Snapshot() == HandleError(config, old(Snapshot()), t, route, error, draw, now) && run == old(run)
      ensures ErrorHandled(config, old(Snapshot()), Snapshot(), t, route, error, draw, now)
    {
      ErrorExactly(config, Snapshot(), HandleError(config, Snapshot(), t, route, error, draw, now), t, route, error, draw, now);
      var queuedExecution := attempts[t].entry;
      if queuedExecution.retryCount < queuedExecution.work.maxRetries && IsRetryable(error) {
        var nextRetryCount := queuedExecution.retryCount + 1;
        var delay := RetryDelay(config.retryDelayBase, config.retryDelayMax, nextRetryCount, draw);
        var retryExecution := queuedExecution.(
          ticket := |issued|, origin := RetryOf(queuedExecution.ticket, route),
          retryCount := nextRetryCount, scheduledAt := (now as real + delay).Floor);
        queue := [retryExecution] + queue;
        issued := issued + [retryExecution];
        log := log + [Retrying(retryExecution, delay, now)];
        attempts := attempts[t := if route.ByPromise? then attempts[t].(promise := Settled)
                                  else attempts[t].(timer := TimerDone)];
      } else {
        attempts := attempts[t := if route.ByPromise? then attempts[t].(promise := WritingFailed)
                                  else attempts[t].(timer := TimerWritingFailed)];
      }
    }

    method OnFailedWriteDone(t: nat, route: Route, ok: bool)
      requires Valid() && Enabled(Snapshot(), FailedWriteDone(t, route, ok))
      modifies this
      ensures run == old(run) + [FailedWriteDone(t, route, ok)] && Valid() && WithinBounds()
      ensures Does(config, old(Snapshot()), FailedWriteDone(t, route, ok), Snapshot())
    {
      attempts := attempts[t := if route.ByPromise? then attempts[t].(promise := Settled)
                                else attempts[t].(timer := TimerDone)];
      if ok {
        log := log + [Failed(attempts[t].entry.job)];
      }
      Note(old(Snapshot()), FailedWriteDone(t, route, ok));
    }

    /** `cancelExecution` up to its first await; `found` is what the promise will resolve to. */
    method CancelExecution(executionId: string) returns (found: bool)
      requires Valid()
      modifies this
      ensures found <==>
        || (exists i | 0 <= i < |old(queue)| :: old(queue)[i].work.executionId == executionId)
        || (executionId in old(runningExecutions) && old(runningExecutions)[executionId] in old(attempts))
      ensures !found ==> Snapshot() == old(Snapshot())
      ensures run == old(run) + [CancelRequested(executionId)] && Valid() && WithinBounds()
      ensures Does(config, old(Snapshot()), CancelRequested(executionId), Snapshot())
    {
      hide After;
      var queueIndex := FindExecution(queue, executionId);
      if queueIndex != -1 {
        var removed := queue[queueIndex];
        queue := queue[..queueIndex] + queue[queueIndex + 1..];
        cancels := cancels + [CancelCall(executionId, removed.job, WritingCancelled)];
        found := true;
      } else if executionId in runningExecutions && runningExecutions[executionId] in attempts {
        var timeout := runningExecutions[executionId];
        ClearTimeoutHandle(timeout);
        runningExecutions := runningExecutions - {executionId};
        cancels := cancels + [CancelCall(executionId, attempts[timeout].entry.job, CancellingRun)];
        found := true;
      } else {
        found := false;
      }
      assert Snapshot() == Cancel(old(Snapshot()), executionId);
      hide Cancel, FindExecution;
      Note(old(Snapshot()), CancelRequested(executionId));
    }

    method OnRunCancelled(k: nat)
      requires Valid() && k < |cancels| && cancels[k].phase == CancellingRun
      modifies this
      ensures run == old(run) + [RunCancelled(k)] && Valid() && WithinBounds()
      ensures Does(config, old(Snapshot()), RunCancelled(k), Snapshot())
    {
      cancels := cancels[k := cancels[k].(phase := WritingCancelled)];
      Note(old(Snapshot()), RunCancelled(k));
    }

    method OnCancelWriteDone(k: nat, ok: bool)
      requires Valid() && k < |cancels| && cancels[k].phase == WritingCancelled
      modifies this
      ensures run == old(run) + [CancelWriteDone(k, ok)] && Valid() && WithinBounds()
      ensures Does(config, old(Snapshot()), CancelWriteDone(k, ok), Snapshot())
    {
      cancels := cancels[k := cancels[k].(phase := CancelDone)];
      if ok {
        log := log + [Cancelled(cancels[k].job)];
      }
      Note(old(Snapshot()), CancelWriteDone(k, ok));
    }

    /** Whatever the event loop delivers, the object follows the state machine and stays within its bounds. */
    method Deliver(e: Event)
      requires Valid() && Enabled(Snapshot(), e)
      modifies this
      ensures Snapshot() == Next(config, old(Snapshot()), e)
      ensures Does(config, old(Snapshot()), e, Snapshot())
      ensures run == old(run) + [e] && Valid() && WithinBounds()
    {
      hide Does, Step, After;
      ghost var before := Snapshot();
      match e {
        case Enqueue(work, at, now) => Accept(work, at, now);
        case DrainTick(now) => RunScheduledDrain(now);
        case Wake(entry, now) => Unpark(entry, now);
        case RunningWritten(t) => OnRunningWritten(t);
        case CallResolved(t) => OnCallResolved(t);
        case Rejected(t, error, draw, now) => OnError(t, error, draw, now);
        case SuccessWritten(t) => OnSuccessWritten(t);
        case TimerFired(t) => OnTimerFired(t);
        case TimeoutHandled(t, draw, now) => OnTimeoutHandled(t, draw, now);
        case FailedWriteDone(t, route, ok) => OnFailedWriteDone(t, route, ok);
        case CancelRequested(executionId) => var found := CancelExecution(executionId);
        case RunCancelled(k) => OnRunCancelled(k);
        case CancelWriteDone(k, ok) => OnCancelWriteDone(k, ok);
      }
      StepDoes(config, before, e, Snapshot());
    }
  }
}
