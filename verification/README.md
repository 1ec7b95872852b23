# NeuroFlow: verified models of its stateful cores

NeuroFlow runs workflows through an execution queue, hands out rotating refresh tokens,
caches and shares requests in its web client, and keeps metrics, socket and paging
bookkeeping. This project models those parts in Dafny and proves what holds of them over
every run, with any interleaving of the steps that an event loop or a database can produce.

`dafny verify dfyconfig.toml` checks the whole project.

## How the parts are modelled

**Execution queue** (`QueueModel`, `QueueContracts`, `QueueInvariant`, `QueueBounds`, `QueueOutcomes`,
`QueuePlaces`, `QueueConservation`, `QueueRetries`, `QueueClean`, `QueueOrder`,
`QueueWitness`, `QueueTightness`, `Backoff`, `ExecutionQueueService`). An event is
one uninterrupted stretch of the service's code between two awaits. Database writes and n8n
calls are events that may succeed, fail or never come. A run is any sequence of events; an
event that cannot happen in a state changes nothing. The class `ExecutionQueueService` has
the service's own fields, the timers, promises and closures that the event loop holds for it,
and a method for each stretch. `QueueContracts` says what each event does without the state
machine's functions, and the state machine and every method are proved to do just that. The
object is always where its run has brought the state machine, so that the theorems about runs
hold of it. An entry carries its object identity (`ticket`), the number
of the enqueue it goes back to (`job`) and the attempt that left it behind (`origin`); the
source has these implicitly, as object references and closures.

The service does not have all the properties one might expect of it, and for each such
property the model gives a run that breaks it and the exact condition under which it holds.

- An accepted execution can come to two places at once: a call that is given up after a
  timeout can fail later and be retried a second time. It can also be lost: a second start
  under the same id takes over its slot, or the write of its final status fails.
  `QueueConservation` proves that an execution is in exactly one place throughout a run if
  and only if every event meets its guard `Keeps` for that execution, whatever happens to
  others. The guard asks three things of the state before the event: whether the settling
  attempt still owes an outcome or its job still has the slot that the event frees, whether a
  start would overwrite an occupied slot, and whether a final write succeeds.
- A job can reach the same retry level twice, and then start more often than its retries
  allow. `QueueRetries` proves that its levels are distinct if and only if no attempt of it is
  retried by both of its routes, and that it then starts at most maxRetries + 1 times.
- Cancelling a retry can leave the queue out of order. `QueueOrder` proves that the stretches
  of first tries between retries stay sorted if and only if no cancellation joins two that do
  not fit together.

`QueueClean` shows that clean runs meet all these guards: runs in which execution ids are
distinct, the call of an attempt that has lost its slot to a timeout or a cancellation never
settles, and the final FAILED and CANCELLED writes succeed. The bounds of `QueueBounds` and
`QueueOutcomes` hold in every run, and `QueueTightness` shows that the bound on attempts
cannot be improved.

**Refresh tokens** (`TokenRotation`, `AuthService`). Each database call is one atomic event;
logins, refreshes and logouts interleave freely and may stop between two calls. Tokens are
fresh numbers, and clients present only tokens that they were given. Deleting a missing row
throws, which is what the protocol's safety rests on.

**Client requests** (`CacheKey`, `ResponseCache`, `SingleFlight`, `ServedAnswers`,
`ApiService`). Strings are
sequences of 16-bit units. The key of a request is proved to name its method, endpoint and
body, by reading the JSON string escapes back (section 7 of RFC 8259). The cache is compared
with a plain log of what was stored, cleared, looked up and cleaned, and `ServedAnswers` says
which answers are kept and which requests they serve.

**Bookkeeping** (`MetricsHistory`, `Percentile`, `MetricsCollector`, `ConnectionManager`,
`Pagination`, `WorkflowGraph`, `WorkflowService`). Each is compared with a simple
specification: the full history, one relation, the whole list, a well-formed graph.

`OrElse` functions model JavaScript's `value || fallback`, where zero and the empty string
count as missing. Clocks, random draws and failures are parameters.

## Model

| member | source | states |
|---|---|---|
| Backoff.DelayRange | src/services/executionQueue.service.ts:334-338 | The delay before retry n is at least the exponential delay or the cap, whichever is less, and at most the cap and 1.1 times the exponential delay, for any random draw. |
| Backoff.DelayIs | src/services/executionQueue.service.ts:334-338 | For any base, cap and draw, the delay before retry n is base * 2^(n-1) * (1 + 0.1 * draw) or the cap, whichever is less. |
| Backoff.DelayNeverDecreases | src/services/executionQueue.service.ts:334-338 | A later retry never waits less than an earlier one, whatever the two draws. |
| Backoff.TotalDelayBound | src/services/executionQueue.service.ts:279-282 | R retries wait in total at most 1.1 * base * (2^R - 1), and at most R times the cap. |
| QueueModel.FindLower | src/services/executionQueue.service.ts:84-89 | The insertion index is the first entry with a lower priority; -1 means that no entry has one. |
| QueueModel.FindExecution | src/services/executionQueue.service.ts:105-107 | The first queued entry of an execution, or -1 if it has none. |
| QueueContracts.ConfiguresEach | src/services/executionQueue.service.ts:41-48 | Each option counts if it is given and not zero, the number of slots if it is positive; otherwise it has its own default. |
| QueueContracts.InsertExactly | src/services/executionQueue.service.ts:84-89 | Whatever the queue holds, retries included, and before any drain: an enqueue puts its entry at the one index where all entries in front have at least its priority and the next, if any, has a lower one. |
| QueueContracts.RetryableExactly | src/services/executionQueue.service.ts:316-329 | Four error codes rule out a retry; no other code and no other error does. |
| QueueContracts.ErrorsAreClassified | src/services/executionQueue.service.ts:273-329 | A call that fails with one of the four codes, or without retries left, queues nothing and awaits the write of FAILED; any other failure issues exactly one entry, which stands at the head. |
| QueueContracts.ErrorExactly | src/services/executionQueue.service.ts:273-311 | The entry that retries an attempt carries its request, counts one retry more and is due when the jittered, capped delay of this very draw is over. |
| QueueContracts.CancelExactly | src/services/executionQueue.service.ts:103-137 | A cancellation removes the first queued entry of the execution and no other; without one it frees the slot and disarms its timeout. |
| QueueContracts.StepDoes | src/services/executionQueue.service.ts:57-311 | The relation `Does` says in plain fields what each event does; the state machine steps to exactly the state that is so related. |
| QueueInvariant.StepKeeps | src/services/executionQueue.service.ts:57-311 | Every event keeps the invariant of all runs: each entry object waits in one place at most and is started at most once and not before it is due, and each retry belongs to one spent route of one earlier attempt. |
| QueueInvariant.RunKeeps | src/services/executionQueue.service.ts:57-311 | The invariant holds after every run, with any configuration. |
| QueueInvariant.RunReasons | src/services/executionQueue.service.ts:279-295 | With a base delay that is not negative, the log explains every retry by the error before it and by its backoff, bounded on both sides. |
| QueueBounds.SlotBound | src/services/executionQueue.service.ts:164-190 | In every run, duplicate ids, late settlements and cancels included, at most maxConcurrentExecutions executions are tracked as running. |
| QueueBounds.CodeInjective | src/services/executionQueue.service.ts:284-294 | Different entry objects of one enqueue sit at different nodes of a binary tree, whose two branches are the two ways in which an attempt can report an error. |
| QueueBounds.AttemptBound | src/services/executionQueue.service.ts:195-311 | In every run one enqueue causes at most 2^(maxRetries+1) - 1 attempts. |
| QueueTightness.BoundIsReached | src/services/executionQueue.service.ts:195-311 | For every n there is a run, under a clock that never goes back, in which a request with n retries is attempted exactly 2^(n+1) - 1 times. |
| QueueBounds.RetrySpacing | src/services/executionQueue.service.ts:173-183 | In every run no attempt starts before it is due, and retry n starts later than the error that caused it by at least min(base * 2^(n-1), max), up to the millisecond that a date truncates, however often it was parked. |
| QueueBounds.RetryDelays | src/services/executionQueue.service.ts:279-295 | In every run each retry waits at least base * 2^(n-1) or the cap, at most 1.1 times that and never longer than the cap, and is due when its delay is over, up to the millisecond that a date truncates. |
| QueueBounds.AttemptsRunTheirRequest | src/services/executionQueue.service.ts:287-291 | Every attempt runs exactly the request that was enqueued, and its retry count is within the request's budget. |
| QueueOutcomes.OutcomeHasCause | src/services/executionQueue.service.ts:217-230 | In every run a completed event means that a call of that job was under way and resolved, and a cancelled event that its cancellation was requested after it had been accepted. |
| QueueOutcomes.FailsOnlyWhenSpent | src/services/executionQueue.service.ts:279-310 | In every run a job is reported failed only after an attempt of it met an error that is not retried, or after at least maxRetries + 1 attempts. |
| QueueOutcomes.FailureIsExact | src/services/executionQueue.service.ts:279-310 | If no attempt of the job is retried by both of its routes, it is reported failed after such an error or after exactly maxRetries + 1 attempts. |
| QueuePlaces.StepTurns | src/services/executionQueue.service.ts:103-311 | Exactly which places an event empties, and to which places it brings which job. |
| QueueConservation.StepExactly | src/services/executionQueue.service.ts:57-311 | From any state in which a job is not in two places, an event brings it to a second place exactly if its guard against that fails, and loses it exactly if its guard against that fails. |
| QueueConservation.StepConserves | src/services/executionQueue.service.ts:57-311 | From any state in which a job is in exactly one place (queue, parked timer, running slot, a transition, a pending cancellation or a terminal event), an event keeps it so exactly if the guard holds. |
| QueueConservation.Conservation | src/services/executionQueue.service.ts:57-311 | In any run a job is in exactly one place from its acceptance on, after every event, if and only if every event meets the guard for this job. |
| QueueConservation.Separation | src/services/executionQueue.service.ts:57-311 | In any run a job is never in two places if and only if every event meets the guard against second places, whether final writes succeed or not. |
| QueueConservation.EndsOnce | src/services/executionQueue.service.ts:217-310 | Under that guard alone a job has at most one terminal event, and once it has ended it is nowhere else. |
| QueueRetries.StepClimbs | src/services/executionQueue.service.ts:279-294 | An event keeps the objects of a job on different retry levels exactly if it does not retry an attempt of the job again. |
| QueueRetries.LevelsClimb | src/services/executionQueue.service.ts:279-294 | After any run the objects of a job are on different retry levels if and only if none of its attempts was retried by both of its routes. |
| QueueRetries.OnceRetriedBound | src/services/executionQueue.service.ts:195-311 | In such a run the job is attempted at most maxRetries + 1 times. |
| QueueClean.CleanRunsKeep | src/services/executionQueue.service.ts:57-311 | Clean runs meet every guard of every job. |
| QueueClean.CleanRunsConserve | src/services/executionQueue.service.ts:57-311 | In a clean run every accepted execution is always in exactly one place and is attempted at most maxRetries + 1 times. |
| QueueClean.CleanRunsEndOnce | src/services/executionQueue.service.ts:217-310 | In a clean run an execution has at most one terminal event, and one that has ended is nowhere else. |
| QueueOrder.RemovalKeepsOrder | src/services/executionQueue.service.ts:105-107 | Removing a queued entry keeps the order exactly if it does not join two stretches of first tries that do not fit together. |
| QueueOrder.OrderedExactly | src/services/executionQueue.service.ts:84-107 | Under a clock that never goes back, the stretches of first tries between retries stay sorted throughout a run if and only if no cancellation removes a retry from between two that do not fit together. |
| QueueOrder.StretchesSorted | src/services/executionQueue.service.ts:84-89 | In such a run first tries between two retries are sorted by priority and by arrival among equals. |
| QueueOrder.NextIsBest | src/services/executionQueue.service.ts:168-171 | While no retry waits, the entry that is taken next is the one that a stable priority queue would pick. |
| QueueWitness.DefaultsConfigured | src/services/executionQueue.service.ts:41-48 | Without options the service allows 5 slots, 300000 ms, 3 retries, and delays from 1000 to 60000 ms. |
| QueueWitness.LateFailureDuplicates | src/services/executionQueue.service.ts:232-240 | A call that is given up after its 300 seconds and fails a millisecond later leaves one execution in the queue twice, at the same retry level. |
| QueueWitness.DuplicateIdLoses | src/services/executionQueue.service.ts:209-209 | A second execution with the id of a running one takes over its slot, and the first is nowhere. |
| QueueWitness.FailedWriteLoses | src/services/executionQueue.service.ts:301-309 | If the write of FAILED fails, the execution is nowhere and no outcome is reported. |
| QueueWitness.CancelDisorders | src/services/executionQueue.service.ts:105-107 | A cancellation leaves a request of priority 5 in front of one of priority 9, with no retry between them. |
| ExecutionQueue.ExecutionQueueService.constructor | src/services/executionQueue.service.ts:41-52 | A new service is configured from its options and has an empty state. |
| ExecutionQueue.ExecutionQueueService.GetQueueStatus | src/services/executionQueue.service.ts:142-148 | The running executions are within the limit, and the status tells exactly whether draining the queue would do anything: something is queued and a slot is free. |
| ExecutionQueue.ExecutionQueueService.Enqueue | src/services/executionQueue.service.ts:57-98 | Accepts the request as given, with defaults for missing options, inserts its entry where its priority belongs among all that wait, retries included, and drains in the same stretch. |
| ExecutionQueue.ExecutionQueueService.ProcessQueue | src/services/executionQueue.service.ts:163-190 | Starts the head if a slot is free and it is due, parks it if it is not due, and schedules another drain after a start only. |
| ExecutionQueue.ExecutionQueueService.Unpark | src/services/executionQueue.service.ts:178-181 | A parked entry goes back to the head and the queue is drained. |
| ExecutionQueue.ExecutionQueueService.ExecuteWorkflow | src/services/executionQueue.service.ts:195-212 | Arms the timeout and takes the slot of the execution id. |
| ExecutionQueue.ExecutionQueueService.OnCallResolved | src/services/executionQueue.service.ts:217-227 | Clears the attempt's own timeout, frees the slot and goes on to write the result. |
| ExecutionQueue.ExecutionQueueService.OnSuccessWritten | src/services/executionQueue.service.ts:229-230 | Reports the execution completed. |
| ExecutionQueue.ExecutionQueueService.OnError | src/services/executionQueue.service.ts:232-241 | Frees whatever slot the execution id has. For the four client errors, or without retries left, nothing is queued and FAILED is to be written; for any other error exactly one entry is issued and stands at the head. |
| ExecutionQueue.ExecutionQueueService.OnTimerFired | src/services/executionQueue.service.ts:247-256 | Frees the slot and goes on to cancel the call. |
| ExecutionQueue.ExecutionQueueService.OnTimeoutHandled | src/services/executionQueue.service.ts:260-267 | Handles the timeout as a retryable error of the timer's route. |
| ExecutionQueue.ExecutionQueueService.HandleExecutionError | src/services/executionQueue.service.ts:273-311 | Queues a new entry at the head, due after base * 2^(n-1) * (1 + 0.1 * draw) or the cap, while retries are left and the error is none of the four client errors; otherwise goes on to write FAILED. |
| ExecutionQueue.ExecutionQueueService.CancelExecution | src/services/executionQueue.service.ts:103-137 | Takes the execution out of the queue, or else off its slot; finds something exactly if one of these holds it, and otherwise changes nothing. |
| ExecutionQueue.ExecutionQueueService.Deliver | src/services/executionQueue.service.ts:57-311 | Whatever the event loop delivers, the object follows the state machine, and its slots and attempts stay within their bounds. |
| TokenRotation.StepKeeps | src/services/auth.service.ts:30-89 | Every database call keeps the protocol's invariant: one usable token per session, one redemption per token. |
| TokenRotation.SingleRedemption | src/services/auth.service.ts:30-51 | Under any number of concurrent refreshes a refresh token is exchanged at most once. |
| TokenRotation.OneLiveTokenPerSession | src/services/auth.service.ts:30-51 | A login session never has two tokens that a client holds and the table accepts. |
| TokenRotation.EndedForGood | src/services/auth.service.ts:30-63 | A session without a usable token never gets one again, whatever calls are under way. |
| TokenRotation.LogoutAllIsFinal | src/services/auth.service.ts:61-63 | Once a user has logged out everywhere, no session begun by then ever again has a token that a client holds and the table accepts, refreshes caught in mid-flight included. |
| TokenRotation.LogoutEnds | src/services/auth.service.ts:53-59 | Logging out with one token ends its session exactly if no other token of the session is usable. |
| TokenRotation.RefreshAlone | src/services/auth.service.ts:30-51 | An uninterrupted refresh swaps a live token for one new live token of the same user. |
| TokenRotation.RefreshExpired | src/services/auth.service.ts:38-42 | An uninterrupted refresh with an expired token throws and deletes its row; no token is made or handed out. |
| TokenRotation.RefreshUnknown | src/services/auth.service.ts:32-36 | A refresh with a token that has no row throws and changes nothing. |
| TokenRotation.RedeemedUnexpired | src/services/auth.service.ts:32-51 | In every run, each call that exchanges a token found at its own reading a row of that token that had not expired. |
| TokenRotation.LogoutAllLeavesOrphan | src/services/auth.service.ts:44-50 | A logout everywhere that overtakes a refresh can leave a row behind; the refresh throws, and no client gets the token. |
| Auth.RefreshTokenRepository.Create | src/repositories/refreshToken.repository.ts:4-10 | Adds one row. |
| Auth.RefreshTokenRepository.FindByToken | src/repositories/refreshToken.repository.ts:12-17 | Finds the row of a token, if there is one. |
| Auth.RefreshTokenRepository.DeleteByToken | src/repositories/refreshToken.repository.ts:19-21 | Removes the row and fails exactly if there is none. |
| Auth.RefreshTokenRepository.DeleteByUserId | src/repositories/refreshToken.repository.ts:23-25 | Removes the user's rows and no others. |
| Auth.RefreshTokenRepository.DeleteExpired | src/repositories/refreshToken.repository.ts:27-35 | Removes the rows that expired before now and no others. |
| Auth.AuthService.OnFound | src/services/auth.service.ts:32-45 | A missing token throws, an expired one goes on to be dropped, a valid one goes on to get its successor for the user of its row; nothing else changes. |
| Auth.AuthService.OnExpiredDropped | src/services/auth.service.ts:38-42 | The expired row is deleted and the refresh throws. |
| Auth.AuthService.OnRefreshStored | src/services/auth.service.ts:45-45 | Stores a new token for the same user before the old one is deleted. |
| Auth.AuthService.OnOldDeleted | src/services/auth.service.ts:48-50 | The refresh succeeds exactly if the old row was still there to delete. |
| Auth.AuthService.OnLoginStored | src/services/auth.service.ts:69-89 | Stores the first token of a new session. |
| CacheKey.EscapeRoundTrip | client/src/services/api.ts:45-49 | Every string, with surrogates paired or not, can be read back from its JSON escape. |
| CacheKey.EscapeHidesQuotes | client/src/services/api.ts:45-49 | Every quote inside an escaped string stands behind a backslash. |
| CacheKey.EscapeOnlySpecial | client/src/services/api.ts:45-49 | A text stays as it is exactly if it holds no quote, backslash, control character or lone surrogate; an escaped text holds no control character. |
| CacheKey.KeyNamesRequest | client/src/services/api.ts:45-49 | Requests whose methods hold no colon share a key exactly if method (GET by default), endpoint and body are equal. |
| CacheKey.BareKey | client/src/services/api.ts:45-49 | Without a body, and with a missing or empty method, the key is `GET:`, the endpoint and a colon. |
| CacheKey.ColonCollision | client/src/services/api.ts:45-49 | With a colon in a method two different requests can share a key. |
| ResponseCache.ReplayFollowsLog | client/src/services/api.ts:35-83 | In every run the cache holds the latest value of a key until a lookup or cleanup has seen it past its expiry. |
| ResponseCache.LookupExact | client/src/services/api.ts:51-61 | A lookup returns what the log owes exactly if the value was not purged by an earlier reading past its expiry. |
| ResponseCache.LookupIsOwed | client/src/services/api.ts:51-61 | Under a clock that has not gone back a lookup returns exactly the latest value stored since the last clear that matched, within its time to live. |
| ResponseCache.CleanupIsInvisible | client/src/services/api.ts:35-43 | Erasing every background cleanup from the history of the cache changes no lookup. |
| ResponseCache.ClockGoingBack | client/src/services/api.ts:35-43 | When the clock goes back, a cleanup can lose a value that is still owed. |
| ResponseCache.ClearReachesEndpoint | client/src/services/api.ts:72-83 | Clearing by a name leaves no request whose endpoint contains the name. |
| SingleFlight.OneFlightPerKey | client/src/services/api.ts:100-154 | In every run at most one fetch per key is under way. |
| SingleFlight.PendingIsUnderWay | client/src/services/api.ts:116-152 | The pending table holds exactly the keys under way if, and only if, no fetch has thrown before it was registered. |
| SingleFlight.JoinsTheFlight | client/src/services/api.ts:92-104 | A request for a key under way is answered from the cache or joins that fetch, and starts no other. |
| SingleFlight.AnswersMatchRequests | client/src/services/api.ts:85-155 | Whatever a caller receives, fetched, shared or cached, is what the network answered to a request with the same key, and unless one of the two methods holds a colon, with the same method, endpoint and body. |
| SingleFlight.HitsAreOwed | client/src/services/api.ts:93-98 | A request is answered from the cache exactly if it is a cached GET and the history of the cache owes it a truthy value at that time, and the answer is that value. |
| SingleFlight.CleanupChangesNothing | client/src/services/api.ts:35-43 | Under a clock that never goes back, a run without its background cleanups hands out the same answers and makes the same fetches. |
| ServedAnswers.RequestExactly | client/src/services/api.ts:85-154 | In plain fields: a cached GET that finds a fresh truthy value is handed it; any other request joins the pending fetch of its key, or starts one that holds its flag and time to live. |
| ServedAnswers.SettleExactly | client/src/services/api.ts:116-149 | In plain fields: a settled fetch is kept in the cache exactly if it succeeded for a cached GET, and its key is free again. |
| ServedAnswers.OthersAreNotKept | client/src/services/api.ts:137-140 | A failed fetch, or one whose request was not a cached GET, leaves the cache as it was. |
| ServedAnswers.FetchIsItsCall | client/src/services/api.ts:85-154 | In every run a fetch holds, until the end, the request, flag and time to live of the call that started it. |
| ServedAnswers.AnswerServes | client/src/services/api.ts:93-140 | In every run under a clock that does not go back: after a good and truthy answer to a cached GET, every cached GET for the key is handed this answer and starts no fetch, until its time to live is over, the key is cleared or another answer is kept. |
| Api.ApiService.CleanupCache | client/src/services/api.ts:35-43 | Deletes exactly the expired entries. |
| Api.ApiService.GetFromCache | client/src/services/api.ts:51-61 | Returns a value that has not expired and deletes an expired entry. |
| Api.ApiService.SetCache | client/src/services/api.ts:63-70 | Stores the value with its expiry. |
| Api.ApiService.ClearCache | client/src/services/api.ts:72-83 | Deletes exactly the keys that contain the pattern, or all without one. |
| Api.ApiService.StartRequest | client/src/services/api.ts:85-154 | Consults the cache for cached GETs, then joins or starts a fetch, with five minutes as the default time to live; `Requests` says so in plain fields. |
| Api.ApiService.OnSettled | client/src/services/api.ts:116-149 | Caches the good answer of a cached GET and no other, and frees the key, on success and failure. |
| MetricsHistory.TalliesSum | src/middleware/monitoring.middleware.ts:79-82 | Counters that tally a list add up to its length. |
| MetricsHistory.LastNPush | src/middleware/monitoring.middleware.ts:94-99 | Trimming the window after each push keeps exactly the last samples. |
| MetricsHistory.AverageBetween | src/middleware/monitoring.middleware.ts:101-105 | The stored minimum, average and maximum are in this order for any samples. |
| MetricsHistory.MaximumIsSample | src/middleware/monitoring.middleware.ts:105-105 | The stored maximum is one of the samples exactly if some sample is not negative. |
| Percentile.SortCorrect | src/middleware/monitoring.middleware.ts:108-108 | Sorting is an ascending rearrangement. |
| Percentile.TailStartsAtPercentile | src/middleware/monitoring.middleware.ts:107-110 | The stored list is not empty and starts with the nearest-rank 95th percentile of the window. |
| Percentile.TailSplitsWindow | src/middleware/monitoring.middleware.ts:107-110 | The stored list has n - ceil(0.95 n) + 1 samples; with the samples below it it is the window. |
| Metrics.BreakdownsAddUp | src/middleware/monitoring.middleware.ts:77-115 | byMethod, byStatus and byEndpoint each add up to the number of requests, byType to the number of errors. |
| Metrics.TimesHangTogether | src/middleware/monitoring.middleware.ts:93-111 | The response-time figures are ordered and the stored list starts at the percentile of the window. |
| Metrics.HealthFalls | src/middleware/monitoring.middleware.ts:142-163 | More errors or slower answers never raise the score, which stays between 20 and 100. |
| Metrics.HealthExactly | src/middleware/monitoring.middleware.ts:142-163 | The score is 100 less two penalties, each exact: more than one error in 10, 20 or 100 requests costs 50, 25 or 10; an average above 5000, 2000 or 1000 ms costs 30, 20 or 10. |
| Metrics.MetricsCollector.RecordRequest | src/middleware/monitoring.middleware.ts:77-91 | After any history since the last reset all figures agree with it, one request longer; a status from 500 on counts as `server_error`, one from 400 to 499 as `client_error`, and any other as no error. |
| Metrics.MetricsCollector.RecordError | src/middleware/monitoring.middleware.ts:113-129 | The same for an error; the recent list is the newest 100, newest first. |
| Metrics.MetricsCollector.Reset | src/middleware/monitoring.middleware.ts:165-193 | Everything is as in a new collector. |
| Metrics.MetricsCollector.GetHealthScore | src/middleware/monitoring.middleware.ts:142-163 | The score is 100 less the penalties of the six thresholds; the floor of zero is never needed. |
| Connections.ConnectKeepsMatched | src/websocket/middleware/connectionManager.middleware.ts:16-21 | A connection keeps the two maps in agreement exactly if its socket is not listed under another user. |
| Connections.SetsDisjoint | src/websocket/middleware/connectionManager.middleware.ts:6-7 | Sets of different users share no socket. |
| Connections.ConnectionManager.Connect | src/websocket/middleware/connectionManager.middleware.ts:9-21 | Adds one pair to the relation of sockets and users. |
| Connections.ConnectionManager.Disconnect | src/websocket/middleware/connectionManager.middleware.ts:26-41 | Removes the socket's pair, unless its user id is empty, and keeps no user without a socket. |
| Connections.ConnectionManager.GetConnectedUsers | src/websocket/middleware/connectionManager.middleware.ts:47-49 | Exactly the users with a socket. |
| Connections.ConnectionManager.GetUserConnectionCount | src/websocket/middleware/connectionManager.middleware.ts:51-53 | The number of the user's sockets in the relation. |
| Connections.ConnectionManager.IsUserConnected | src/websocket/middleware/connectionManager.middleware.ts:55-57 | Whether the user has a socket. |
| Connections.ConnectionManager.GetTotalConnections | src/websocket/middleware/connectionManager.middleware.ts:59-65 | The summed sizes are the number of tracked sockets. |
| Pagination.BuildWhere | src/repositories/execution.repository.ts:134-167 | The query object selects exactly what the filters mean, and has one key for each column that they restrict. |
| Pagination.FoundExactly | src/repositories/execution.repository.ts:187-188 | The selected rows are all the rows that match, each once, in their order, and no others. |
| Pagination.FindMany | src/repositories/execution.repository.ts:129-238 | Item k is the selected row (page - 1) * limit + k, at most 100 of them; the total is exact unless the page, the failure, the number of restricted columns and the size of the result call for an estimate. |
| Pagination.PagesCover | src/repositories/execution.repository.ts:170-171 | Enough pages give the whole list, without gap or repeat, exactly if the limit is at most 100 or everything fits on one page. |
| Pagination.TotalReported | src/repositories/execution.repository.ts:222-268 | The total is exact, except that an estimate is always the size of the whole table; it is never too low. |
| Pagination.ReportedPagesCover | src/repositories/execution.repository.ts:227-238 | The page count that any page reports is enough, under the same condition. |
| WorkflowGraph.ValidateWorkflowNodes | src/services/workflow.service.ts:330-348 | Accepts exactly non-empty lists of complete nodes with distinct ids; otherwise names exactly the repeated ids, or a node that is not complete. |
| WorkflowGraph.ValidateWorkflowConnections | src/services/workflow.service.ts:350-369 | Accepts exactly connections between existing nodes; otherwise names a source or a target of some connection that is no node. |
| WorkflowGraph.ValidateWorkflowDefinition | src/services/workflow.service.ts:265-278 | Accepts exactly the well-formed graphs. |
| WorkflowGraph.SanitizeNodeParameters | src/services/workflow.service.ts:299-312 | Removes exactly the dangerous keys. |
| WorkflowGraph.SanitizeExactly | src/services/workflow.service.ts:283-312 | Sanitizing keeps connections, settings, and of each node all but its parameters; of these it keeps exactly those whose key is none of the four dangerous ones. |
| WorkflowGraph.SanitizeFixes | src/services/workflow.service.ts:283-297 | Sanitizing changes nothing exactly in definitions whose nodes all have parameters and none of them dangerous. |
| WorkflowGraph.SanitizeIdempotent | src/services/workflow.service.ts:283-297 | Sanitizing twice is sanitizing once. |
| WorkflowGraph.SanitizeKeepsAcceptance | src/services/workflow.service.ts:283-297 | A definition is well formed exactly if its sanitized form is. |
| Workflows.TrimExactly | src/services/workflow.service.ts:31-32 | Trimming cuts the spaces off both ends, all of them and nothing else. |
| Workflows.WorkflowService.CreateWorkflow | src/services/workflow.service.ts:22-58 | Stores a sanitized definition, or changes nothing and says why. |
| Workflows.WorkflowService.UpdateWorkflow | src/services/workflow.service.ts:114-161 | Changes the given fields of the owner's workflow, except that a name of spaces only keeps the old one, and keeps every stored definition sanitized. |
| Workflows.WorkflowService.DuplicateWorkflow | src/services/workflow.service.ts:242-253 | The copy of a stored workflow is a draft with the very same definition. |

## Left out

- `shutdown` of the execution queue: it drops queued entries without a terminal event and ends the run.
- Two things that the queue's code does not promise: that a free slot is used at once, since nothing drains the queue when a slot frees, and that a written terminal status stays, since the repository update has no guard.
- Event listeners that throw, and an unhandled rejection that ends the process, are not modelled.
- Numbers that are not whole (priorities, retry counts, timeouts) and NaN; bounds on retry delays when the base delay is negative, and dates too large to represent.
- Floating-point rounding: delays, averages and percentiles use exact arithmetic.
- Passwords, signed access tokens and the randomness of refresh tokens; a refresh token is a fresh number.
- Rows removed with their user's account: the effect on the token table is that of a logout everywhere.
- The headers of a client request, which are not part of its key, and the single retry of authenticated requests after a 401.
- Request bodies that are not strings: the client serialises bodies before they reach the key.
- Names such as `constructor` as metric keys, which a JavaScript object would find on its prototype.
- System figures of the metrics (uptime, memory, cpu).
- Ties in the order of executions: the order in which the database returns selected rows is taken as fixed across pages.
- Workflow definitions that break the schema in ways that the type `Definition` cannot express, and keys that the schema strips.
- Workflow status transitions, statistics and deletion: they would add only easy members.
- HTTP routing, logging, n8n, the database and the socket library themselves, and the user interface.
