/**
 The execution queue as a state machine. Each event is one uninterrupted stretch of
 the queue's code between two awaits, so a run is a sequence of events. Database writes
 and n8n calls are events of their own that may succeed, fail or never happen.
 */
module QueueModel {
  import opened Common
  import opened Backoff

  /** What a caller may leave out when the service is created. */
  datatype Options = Options(
    maxConcurrent: Option<nat>, defaultTimeout: Option<int>, defaultMaxRetries: Option<int>,
    retryDelayBase: Option<real>, retryDelayMax: Option<real>)

  datatype Config = Config(
    maxConcurrent: nat, defaultTimeout: int, defaultMaxRetries: int,
    retryDelayBase: real, retryDelayMax: real)
  {
    predicate Valid() {
      retryDelayBase >= 0.0
    }
  }

  /** JavaScript's `value || fallback` on an optional number: zero counts as missing. */
  function OrElse(value: Option<int>, fallback: int): int {
    if value.None? || value.value == 0 then fallback else value.value
  }

  function OrElseReal(value: Option<real>, fallback: real): real {
    if value.None? || value.value == 0.0 then fallback else value.value
  }

  function Configure(options: Options): Config {
    Config(
      if options.maxConcurrent.None? || options.maxConcurrent.value == 0 then 5 else options.maxConcurrent.value,
      OrElse(options.defaultTimeout, 300000),
      OrElse(options.defaultMaxRetries, 3),
      OrElseReal(options.retryDelayBase, 1000.0),
      OrElseReal(options.retryDelayMax, 60000.0))
  }

  /** The fields of a queue entry that a retry copies unchanged. */
  datatype Work = Work(
    executionId: string, workflowId: string, userId: string, definition: string, inputData: string,
    maxRetries: int, priority: int, timeout: int)

  /** An attempt can report an error twice: through its own promise and through its timer. */
  datatype Route = ByPromise | ByTimer

  /** Where an entry object came from. */
  datatype Origin = First | RetryOf(parent: nat, route: Route)

  /**
   A queue entry. `ticket` is the object's identity and `job` the serial number of the
   enqueue that it goes back to; the source has both only implicitly.
   */
  datatype Entry = Entry(
    ticket: nat, job: nat, origin: Origin, work: Work, retryCount: nat, scheduledAt: int)

  /** How far the promise of an attempt has come. */
  datatype PromisePhase = WritingRunning | Calling | WritingSuccess | WritingFailed | Settled

  /** How far the timeout of an attempt has come. */
  datatype TimerPhase = Armed | Disarmed | CancellingCall | TimerWritingFailed | TimerDone

  /** One started entry. Its ticket doubles as the handle of its timeout. */
  datatype Attempt = Attempt(entry: Entry, promise: PromisePhase, timer: TimerPhase)

  datatype CancelPhase = CancellingRun | WritingCancelled | CancelDone

  /** One cancellation that found something to cancel. */
  datatype CancelCall = CancelCall(executionId: string, job: nat, phase: CancelPhase)

  /** The events that the service emits, in order, and the start of each attempt. */
  datatype Record =
    | Enqueued(entry: Entry)
    | Started(entry: Entry, at: int)
    | Retrying(entry: Entry, delay: real, at: int)
    | Completed(job: nat)
    | Failed(job: nat)
    | Cancelled(job: nat)
  {
    predicate Terminal() {
      Completed? || Failed? || Cancelled?
    }

    function JobOf(): nat {
      match this
      case Enqueued(e) => e.job
      case Started(e, _) => e.job
      case Retrying(e, _, _) => e.job
      case Completed(j) => j
      case Failed(j) => j
      case Cancelled(j) => j
    }
  }

  /**
   `queue` and `running` are the service's own fields. The rest is what the event loop
   holds for it: attempts with their pending promises and timers, entries parked in a
   timer closure, scheduled drains and pending cancellations. `works`, `issued` and `log`
   are history: accepted requests, entry objects ever made and records, oldest first.
   */
  datatype State = State(
    queue: seq<Entry>, running: map<string, nat>,
    attempts: map<nat, Attempt>, parked: set<Entry>, drains: nat, cancels: seq<CancelCall>,
    works: seq<Work>, issued: seq<Entry>, log: seq<Record>)

  const INITIAL := State([], map[], map[], {}, 0, [], [], [], [])

  // ---------------------------------------------------------------------------------
  // The queue array

  /** Index of the first entry whose priority is lower than p, or -1. */
  function FindLower(queue: seq<Entry>, p: int): (i: int)
    ensures -1 <= i < |queue|
    ensures i == -1 ==> forall k | 0 <= k < |queue| :: queue[k].work.priority >= p
    ensures i >= 0 ==> queue[i].work.priority < p && forall k | 0 <= k < i :: queue[k].work.priority >= p
  {
    if queue == [] then -1
    else if queue[0].work.priority < p then 0
    else
      var i := FindLower(queue[1..], p);
      if i == -1 then -1 else i + 1
  }

  /** Index of the first entry for this execution, or -1. */
  function FindExecution(queue: seq<Entry>, executionId: string): (i: int)
    ensures -1 <= i < |queue|
    ensures i == -1 ==> forall k | 0 <= k < |queue| :: queue[k].work.executionId != executionId
    ensures i >= 0 ==>
      queue[i].work.executionId == executionId
      && forall k | 0 <= k < i :: queue[k].work.executionId != executionId
  {
    if queue == [] then -1
    else if queue[0].work.executionId == executionId then 0
    else
      var i := FindExecution(queue[1..], executionId);
      if i == -1 then -1 else i + 1
  }

  /** Where an enqueue puts an entry of priority p. */
  function InsertIndex(queue: seq<Entry>, p: int): (i: nat)
    ensures i <= |queue|
  {
    var i := FindLower(queue, p);
    if i == -1 then |queue| else i
  }

  function InsertAt<T>(s: seq<T>, i: nat, x: T): seq<T>
    requires i <= |s|
  {
    s[..i] + [x] + s[i..]
  }

  function RemoveAt<T>(s: seq<T>, i: nat): seq<T>
    requires i < |s|
  {
    s[..i] + s[i + 1..]
  }

  // ---------------------------------------------------------------------------------
  // The stretches

  function WorkFor(config: Config, executionId: string, workflowId: string, userId: string, definition: string,
                   inputData: string, priority: Option<int>, timeout: Option<int>, maxRetries: Option<int>): Work
  {
    Work(executionId, workflowId, userId, definition, inputData,
         OrElse(maxRetries, config.defaultMaxRetries), OrElse(priority, 0), OrElse(timeout, config.defaultTimeout))
  }

  /** The first half of `enqueue`: a new entry goes in by priority. */
  function Insert(s: State, work: Work, at: int): State {
    var e := Entry(|s.issued|, |s.works|, First, work, 0, at);
    s.(queue := InsertAt(s.queue, InsertIndex(s.queue, work.priority), e),
       works := s.works + [work],
       issued := s.issued + [e],
       log := s.log + [Enqueued(e)])
  }

  /** `executeWorkflow` up to its first await. */
  function Start(s: State, e: Entry, now: int): State {
    s.(running := s.running[e.work.executionId := e.ticket],
       attempts := s.attempts[e.ticket := Attempt(e, WritingRunning, Armed)],
       log := s.log + [Started(e, now)])
  }

  /** `processQueue`: takes the head, and starts it or parks it until it is due. */
  function Drain(config: Config, s: State, now: int): State {
    if |s.running| >= config.maxConcurrent then s
    else if s.queue == [] then s
    else
      var e := s.queue[0];
      var popped := s.(queue := s.queue[1..]);
      if e.scheduledAt > now then popped.(parked := popped.parked + {e})
      else Start(popped, e, now).(drains := popped.drains + 1)
  }

  /** A parked entry's timer puts it back at the head. */
  function Unpark(s: State, e: Entry): State {
    s.(parked := s.parked - {e}, queue := [e] + s.queue)
  }

  /** `clearTimeout`: a handle that has fired or was cleared before is left alone. */
  function ClearTimeout(attempts: map<nat, Attempt>, handle: nat): map<nat, Attempt> {
    if handle in attempts && attempts[handle].timer == Armed
    then attempts[handle := attempts[handle].(timer := Disarmed)]
    else attempts
  }

  function SetPromise(s: State, t: nat, phase: PromisePhase): State
    requires t in s.attempts
  {
    s.(attempts := s.attempts[t := s.attempts[t].(promise := phase)])
  }

  function SetTimer(s: State, t: nat, phase: TimerPhase): State
    requires t in s.attempts
  {
    s.(attempts := s.attempts[t := s.attempts[t].(timer := phase)])
  }

  /** The call came back: free the slot, then write the result. */
  function Resolve(s: State, t: nat): State
    requires t in s.attempts
  {
    var id := s.attempts[t].entry.work.executionId;
    SetPromise(s.(attempts := ClearTimeout(s.attempts, t), running := s.running - {id}), t, WritingSuccess)
  }

  /** Frees whatever slot is registered under this execution, as the catch block does. */
  function ReleaseSlot(s: State, executionId: string): State {
    if executionId in s.running
    then s.(attempts := ClearTimeout(s.attempts, s.running[executionId]), running := s.running - {executionId})
    else s
  }

  /** A route that has reported its error and waits for nothing more. */
  function CloseRoute(s: State, t: nat, route: Route): State
    requires t in s.attempts
  {
    if route.ByPromise? then SetPromise(s, t, Settled) else SetTimer(s, t, TimerDone)
  }

  function AwaitFailedWrite(s: State, t: nat, route: Route): State
    requires t in s.attempts
  {
    if route.ByPromise? then SetPromise(s, t, WritingFailed) else SetTimer(s, t, TimerWritingFailed)
  }

  datatype ErrorCode =
    | UNAUTHORIZED | FORBIDDEN | TOKEN_EXPIRED
    | VALIDATION_ERROR | INVALID_INPUT
    | WORKFLOW_NOT_FOUND | EXECUTION_NOT_FOUND | EXECUTION_FAILED | N8N_UNAVAILABLE
    | INTERNAL_ERROR | DATABASE_ERROR

  /** Errors of the application carry a code; anything else is a network or server error. */
  datatype ExecutionError = AppError(code: ErrorCode) | OtherError

  predicate IsRetryable(error: ExecutionError) {
    error.AppError? ==> error.code !in {VALIDATION_ERROR, INVALID_INPUT, UNAUTHORIZED, FORBIDDEN}
  }

  const TIMEOUT_ERROR := AppError(EXECUTION_FAILED)

  predicate ShouldRetry(e: Entry, error: ExecutionError) {
    e.retryCount < e.work.maxRetries && IsRetryable(error)
  }

  /** The entry that a failed attempt leaves behind for its next try. */
  function RetryEntry(ticket: nat, e: Entry, route: Route, delay: real, now: int): Entry {
    e.(ticket := ticket, origin := RetryOf(e.ticket, route), retryCount := e.retryCount + 1,
       scheduledAt := (now as real + delay).Floor)
  }

  /** The retry branch of `handleExecutionError`: a new entry goes in at the head. */
  function PushRetry(config: Config, s: State, t: nat, route: Route, draw: Jitter, now: int): State
    requires t in s.attempts
  {
    var e := s.attempts[t].entry;
    var delay := RetryDelay(config.retryDelayBase, config.retryDelayMax, e.retryCount + 1, draw);
    var retry := RetryEntry(|s.issued|, e, route, delay, now);
    CloseRoute(s, t, route).(
      queue := [retry] + s.queue,
      issued := s.issued + [retry],
      log := s.log + [Retrying(retry, delay, now)])
  }

  /** `handleExecutionError` up to its first await. */
  function HandleError(config: Config, s: State, t: nat, route: Route, error: ExecutionError, draw: Jitter, now: int): State
    requires t in s.attempts
  {
    if ShouldRetry(s.attempts[t].entry, error) then PushRetry(config, s, t, route, draw, now)
    else AwaitFailedWrite(s, t, route)
  }

  /** The catch block of `executeWorkflow`. */
  function Reject(config: Config, s: State, t: nat, error: ExecutionError, draw: Jitter, now: int): State
    requires t in s.attempts
  {
    HandleError(config, ReleaseSlot(s, s.attempts[t].entry.work.executionId), t, ByPromise, error, draw, now)
  }

  /** The timeout fires: free the slot, then ask n8n to stop. */
  function Expire(s: State, t: nat): State
    requires t in s.attempts
  {
    SetTimer(s.(running := s.running - {s.attempts[t].entry.work.executionId}), t, CancellingCall)
  }

  function Append(s: State, r: Record): State {
    s.(log := s.log + [r])
  }

  /** `cancelExecution` up to its first await. */
  function Cancel(s: State, executionId: string): State {
    var i := FindExecution(s.queue, executionId);
    if i >= 0 then
      s.(queue := RemoveAt(s.queue, i),
         cancels := s.cancels + [CancelCall(executionId, s.queue[i].job, WritingCancelled)])
    else if executionId in s.running && s.running[executionId] in s.attempts then
      var h := s.running[executionId];
      s.(attempts := ClearTimeout(s.attempts, h), running := s.running - {executionId},
         cancels := s.cancels + [CancelCall(executionId, s.attempts[h].entry.job, CancellingRun)])
    else s
  }

  function SetCancel(s: State, k: nat, phase: CancelPhase): State
    requires k < |s.cancels|
  {
    s.(cancels := s.cancels[k := s.cancels[k].(phase := phase)])
  }

  // ---------------------------------------------------------------------------------
  // Events and runs

  datatype Event =
    | Enqueue(work: Work, at: int, now: int)
    | DrainTick(now: int)
    | Wake(entry: Entry, now: int)
    | RunningWritten(t: nat)
    | CallResolved(t: nat)
    | Rejected(t: nat, error: ExecutionError, draw: Jitter, now: int)
    | SuccessWritten(t: nat)
    | TimerFired(t: nat)
    | TimeoutHandled(t: nat, draw: Jitter, now: int)
    | FailedWriteDone(t: nat, route: Route, ok: bool)
    | CancelRequested(executionId: string)
    | RunCancelled(k: nat)
    | CancelWriteDone(k: nat, ok: bool)

  /** Whether the event loop can deliver this event now. */
  predicate Enabled(s: State, e: Event) {
    match e
    case Enqueue(_, _, _) => true
    case DrainTick(_) => s.drains > 0
    case Wake(entry, _) => entry in s.parked
    case RunningWritten(t) => t in s.attempts && s.attempts[t].promise == WritingRunning
    case CallResolved(t) => t in s.attempts && s.attempts[t].promise == Calling
    case Rejected(t, _, _, _) => t in s.attempts && s.attempts[t].promise in {WritingRunning, Calling, WritingSuccess}
    case SuccessWritten(t) => t in s.attempts && s.attempts[t].promise == WritingSuccess
    case TimerFired(t) => t in s.attempts && s.attempts[t].timer == Armed
    case TimeoutHandled(t, _, _) => t in s.attempts && s.attempts[t].timer == CancellingCall
    case FailedWriteDone(t, route, _) =>
      t in s.attempts
      && (if route.ByPromise? then s.attempts[t].promise == WritingFailed else s.attempts[t].timer == TimerWritingFailed)
    case CancelRequested(_) => true
    case RunCancelled(k) => k < |s.cancels| && s.cancels[k].phase == CancellingRun
    case CancelWriteDone(k, _) => k < |s.cancels| && s.cancels[k].phase == WritingCancelled
  }

  /** The stretch of code that an event runs. */
  function Step(config: Config, s: State, e: Event): State
    requires Enabled(s, e)
  {
    match e
    case Enqueue(work, at, now) => Drain(config, Insert(s, work, at), now)
    case DrainTick(now) => Drain(config, s.(drains := s.drains - 1), now)
    case Wake(entry, now) => Drain(config, Unpark(s, entry), now)
    case RunningWritten(t) => SetPromise(s, t, Calling)
    case CallResolved(t) => Resolve(s, t)
    case Rejected(t, error, draw, now) => Reject(config, s, t, error, draw, now)
    case SuccessWritten(t) => Append(SetPromise(s, t, Settled), Completed(s.attempts[t].entry.job))
    case TimerFired(t) => Expire(s, t)
    case TimeoutHandled(t, draw, now) => HandleError(config, s, t, ByTimer, TIMEOUT_ERROR, draw, now)
    case FailedWriteDone(t, route, ok) =>
      var closed := CloseRoute(s, t, route);
      if ok then Append(closed, Failed(s.attempts[t].entry.job)) else closed
    case CancelRequested(executionId) => Cancel(s, executionId)
    case RunCancelled(k) => SetCancel(s, k, WritingCancelled)
    case CancelWriteDone(k, ok) =>
      var done := SetCancel(s, k, CancelDone);
      if ok then Append(done, Cancelled(s.cancels[k].job)) else done
  }

  /** An event that cannot be delivered changes nothing. */
  function Next(config: Config, s: State, e: Event): State {
    if Enabled(s, e) then Step(config, s, e) else s
  }

  /** The state after a run of events from a fresh service. */
  function After(config: Config, run: seq<Event>): State {
    if run == [] then INITIAL
    else Next(config, After(config, run[..|run| - 1]), run[|run| - 1])
  }
}
