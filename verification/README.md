# Task orchestrator: a verified model

The application accepts tasks over HTTP, stores them in PostgreSQL, hands them to workers through
RabbitMQ, caches them in Redis, and limits the requests of each user with a token bucket that a Lua
script keeps in the same Redis. This project models its stateful parts and proves what they promise.
`dafny verify dfyconfig.toml` checks all of it.

**Rate limiter.** `TokenBucket` is the arithmetic of the script over exact reals: initialise, refill
with a cap, decide, take. A run is any sequence of clock readings, in any order. The token level has a
closed form (the least room that any window ending at the request leaves), from which follow the exact
criterion of admission, the bound on every block of requests, and that a run is never denied exactly
when its requests conform. `TokenBucketRuns` compares whole runs: with and without denied requests, and
under two configurations. `RedisStore` is the script as Redis runs it, on a key that expires, in place
in a class. `RateLimiterTtl` proves exactly when the expiry changes no reply, for any readings and any
instants of execution, derives that one clock for both is enough, and gives a run in which a reading
taken too early makes the expiry visible; `RateLimiterLeastTtl` proves that on one clock no shorter
expiry would do. `RateLimiterMiddleware` adds the lost calls (fail open)
and the interleaving of users and caches in one database; `RedisKeys` and `Numerals` prove that their
keys never collide. `RateLimiterPresets` orders the presets.

**Worker pool.** `WorkerPool` is the delivery protocol as atomic steps over the tasks table, the queue,
any number of workers, and creators between commit and publication. Every call that can fail has a step
for its failure. The broker queues a message again when the channel of its worker is lost: the worker is
lost with it at any point, or it is cut off and goes on with its transactions until a call to the broker
fails. `WorkerSafety`, `WorkerOutcomes`, `WorkerDiscipline` and `WorkerBounds` prove one invariant each,
with `WorkerWeights` as the sums they need; `WorkerTheorems` states the results on reachable states,
`WorkerLeaks` proves which leaks there are, `WorkerHarm` exactly which steps let a task be taken back,
`WorkerReopening` exactly which tasks can still be finished, changed or taken back, `WorkerBoundReached`
that the bound on handler runs is tight, `WorkerScenarios` that harmful steps do occur, and
`WorkerRefinement` that the concurrent pool ends where working on the published messages one at a time
ends. `WorkerWrites` states what each transaction writes, `WorkerRunLengths` the bounds as statements
about runs. `Orchestrator` is the code itself, a class that updates its queue and its workers in place:
CreateTask, the loop of StartWorker and each of its transactions. Its methods are proved to take a run of
steps of the protocol from reachable to reachable states, so that the theorems hold of them, and to leave
the table and the queue that the given faults call for (`WorkerShift`).

**Queue body.** `QueueBody` prints the body by hand as CreateTask does (`%d`, and `%q` for the type) and
reads it as JSON. The round trip holds for exactly those task types of which JSON knows every escape
that `%q` uses. Go's Unicode tables are the parameter `printable`; for ASCII the result does not depend
on it.

**Cache.** `TaskCache` is the read-through cache with concurrent readers split into lookup, read and set.
`MonotoneReads` puts single-stepped reads next to the worker pool, and `ReadsTakenBack` proves exactly which
steps let a read go back. `TaskService` is the code, over the classes `Database` (`TaskTable`) and `Redis`.

**Where the code and its documentation differ.** `README.md:334-341` calls the final status COMPLETED;
the code writes SUCCESS (`internal/task/repository.go:157-163`), and so does the model. The same picture
never leads back from a final status; the code can, because its updates do not look at the old status.
`WorkerHarm` proves exactly which step makes the difference: it queues a message again although its
worker had finished with it and the task is finished or has another actor, or although its worker goes on
and can still write the row. The second case also adds a fifth way to lose a task to the four that the
code logs (`WorkerLeaks`).

**Parameters.** Clock readings, network and database failures, the order in which the broker delivers,
and the order in which a query yields rows are parameters of the steps and methods: the theorems hold
whatever they are.

## Model

| member | source | states |
|---|---|---|
| TokenBucket.AfterShape | internal/middleware/rate_limiter.lua:20-26 | the level never exceeds the capacity, and the refill time is the running maximum of all clock readings, however they are ordered |
| TokenBucket.ClosedForm | internal/middleware/rate_limiter.lua:14-33 | a request finds exactly the minimum, over all windows that end with it, of capacity plus earnings less admissions |
| TokenBucket.AdmittedIffEveryWindowHasRoom | internal/middleware/rate_limiter.lua:28-33 | a request is admitted if and only if every window that ends with it has room for one more |
| TokenBucket.BlockBound | internal/middleware/rate_limiter.lua:14-33 | every contiguous block admits at most capacity plus rate times the time it spans |
| TokenBucket.NeverDeniedIffConforms | internal/middleware/rate_limiter.lua:14-33 | no request of a run is denied if and only if the requests themselves fit every window |
| TokenBucket.BurstAdmitsCapacity | internal/middleware/rate_limiter.lua:14-33 | of a burst at one instant exactly the first `capacity` requests are admitted |
| TokenBucketRuns.DecisionsAreAdmissions | internal/middleware/rate_limiter.lua:6-43 | the forward run from a missing bucket decides as the closed form's admission does |
| TokenBucketRuns.DeniedRequestsLeaveNoTrace | internal/middleware/rate_limiter.lua:21-38 | deleting any set of denied requests from any run changes no other decision |
| TokenBucketRuns.LargerAdmitsAtLeastAsMany | internal/middleware/rate_limiter.lua:14-33 | more capacity and more rate never lower the number admitted, after any prefix |
| TokenBucketRuns.WaitSufficesIffTokenEarned | internal/middleware/rate_limiter.go:75 | every bucket that is not overdrawn holds a token once the readings have gone up by d seconds if and only if d is at least 1/rate rounded up |
| TokenBucketRuns.NeverOverdrawn | internal/middleware/rate_limiter.lua:28-38 | no run leaves a bucket overdrawn |
| RateLimiterPresets.AdvertisedWaitCanBeTooShort | internal/middleware/rate_limiter.go:72-76 | the advertised 1/rate seconds can be too short: under the default configuration a denied request is denied again 100 milliseconds later |
| TokenBucketRuns.LargerMayHoldFewerTokens | internal/middleware/rate_limiter.lua:14-33 | the order is one of admissions only: a concrete run in which the larger bucket holds less |
| RedisStore.Redis.EvalRateLimiter | internal/middleware/rate_limiter.lua:6-43 | one execution in place is the specified step on its key, expiry and failure of EXPIRE included, and touches no other key |
| RedisStore.Redis.Get | internal/cache/task_cache.go:23-32 | an error exactly when the call fails or the key holds a bucket, else the live text or a miss; only an expired value of that key goes away |
| RedisStore.Redis.Set | internal/cache/task_cache.go:35-41 | up to the instant of the expiry the key holds the text, later nothing; other keys, and a failed call, change nothing |
| RateLimiterTtl.ExpiryIsInvisibleIffRefilled | internal/middleware/rate_limiter.lua:14-41 | for any stored bucket, readings and instants: the replies of the expiring store equal the decisions of one that never expires, on a run and on every replay of one of its requests, if and only if each request that comes after an expiry finds time enough to have refilled the bucket |
| RateLimiterTtl.TtlIsInvisible | internal/middleware/rate_limiter.lua:35-41 | hence on a new key no reply of the run shows the expiry, under that condition alone |
| RateLimiterTtl.KeepingUpIsEnough | internal/middleware/rate_limiter.go:54-59 | the condition holds when each request that comes more than a TTL after the one before has a reading a TTL above all earlier ones; requests that come sooner may carry any reading |
| RateLimiterTtl.OneClockIsEnough | internal/middleware/rate_limiter.go:54-59 | it holds of readings that are the whole second of execution on one non-decreasing clock |
| RateLimiterLeastTtl.ScriptForgets | internal/middleware/rate_limiter.lua:40-41 | the script replies as a store that forgets a bucket ceil(capacity/rate) seconds after its last write |
| RateLimiterLeastTtl.ScriptTtlIsLeast | internal/middleware/rate_limiter.lua:40-41 | forgetting after d seconds is invisible in all runs on one clock if and only if d is at least ceil(capacity/rate) |
| RateLimiterTtl.EarlyReadingMakesTtlVisible | internal/middleware/rate_limiter.go:54-59 | where it does not hold a reply changes: a run with a reading taken before the second of execution |
| RateLimiterTtl.StoredBucketIsNotFull | internal/middleware/rate_limiter.lua:20-38 | no request leaves a full bucket behind, as the criterion above asks of the stored one |
| RateLimiterTtl.RateNotPositive | internal/middleware/rate_limiter.lua:40-43 | a rate of zero makes every execution fail, a negative one deletes the key each time: neither limits a bucket that can hold a token |
| RateLimiterMiddleware.RateLimiter.Handle | internal/middleware/rate_limiter.go:42-84 | 401 without a user, else the specified step on the user's own key; no other key changes |
| RateLimiterTtl.ScriptErrorsExactly | internal/middleware/rate_limiter.lua:10-43 | an execution fails if and only if the rate is zero or the key holds a text; what it leaves in either case |
| RateLimiterMiddleware.OnlyDenialsBlock | internal/middleware/rate_limiter.go:55-82 | 429 if and only if the call is answered with a denial; only a call that did not get to the script leaves its key alone |
| RateLimiterMiddleware.UsersAreIsolated | internal/middleware/rate_limiter.go:53-59 | in any interleaving with other users and both caches a user sees the outcomes of that user's requests run alone |
| RateLimiterMiddleware.PassedOnIffAdmittedOrFailed | internal/middleware/rate_limiter.go:55-82 | a request is passed on if and only if its call failed or the bucket, fed with the executed calls alone, admits it |
| RateLimiterMiddleware.FailOpenBound | internal/middleware/rate_limiter.go:61-82 | with f failed calls in a block at most capacity + rate * elapsed + f of its requests are passed on, elapsed being measured by the readings of the executed calls, whatever they are, as long as no expiry shows |
| RateLimiterMiddleware.FailOpenBoundOnOneClock | internal/middleware/rate_limiter.go:54-82 | on one clock the same with the time that the block itself spans |
| RateLimiterPresets.PresetsAreOrdered | internal/middleware/rate_limiter_presets.go:5-45 | on the same requests each preset admits, after every prefix, at least as many as the stricter one |
| RateLimiterPresets.PresetsAreAsDocumented | internal/middleware/rate_limiter_presets.go:5-45 | the documented bursts are exactly what a fresh bucket admits at one instant, and the documented rates what it earns |
| RateLimiterPresets.CustomIsAsGiven | internal/middleware/rate_limiter_presets.go:47-54 | a custom configuration has the burst and the rate it is given, whatever they are |
| Numerals.DecimalIsInjective | internal/middleware/rate_limiter.go:87-89 | no two integers are printed alike |
| RedisKeys.KeysNeverCollide | internal/cache/task_cache.go:43-51 | limiter keys, task keys and list keys are all different strings |
| RedisKeys.KeysAreWritten | internal/cache/task_cache.go:43-51 | a key of each kind, character by character |
| QueueBody.CharRoundTrip | internal/task/service.go:72 | one character that `%q` prints is read back by JSON if and only if JSON knows its escape |
| QueueBody.StringRoundTrip | internal/task/service.go:72 | the same of a whole quoted string with any text after it |
| QueueBody.IntRoundTrip | internal/task/service.go:70-71 | a printed integer is read back, sign included, if and only if it has 64 bits |
| QueueBody.BodyRoundTrip | internal/task/service.go:69-73 | the worker reads exactly the payload written, or nothing when the type has a character JSON lacks an escape for |
| QueueBody.AsciiBodyRoundTrip | internal/worker/worker.go:68-75 | for ASCII types: read back if and only if made of 0x20-0x7E and \b \t \n \f \r |
| QueueBody.UnicodeBodyRoundTrip | internal/task/service.go:72 | for all types, in Go's tables and code points alone: the same for the ASCII characters, and every other one printable or below 0x10000 |
| QueueBody.BodyIsWritten | internal/task/service.go:69-73 | the text of the body, character by character |
| QueueBody.ShortEscapesAreWritten | internal/task/service.go:72 | the escapes of quotes, backslashes and controls that `%q` has |
| QueueBody.LongEscapesAreWritten | internal/task/service.go:72 | its numeric escapes have two, four or eight lower-case digits |
| TaskTable.Database.Run | internal/task/repository.go:138-182 | a statement changes no row but its own, which gets a new time of update, keeps every row and its identity, does nothing to a missing row, and an insert draws an id that stays drawn |
| TaskTable.StatementsWriteTheirColumns | internal/task/repository.go:25-50 | each statement sets its columns and the time of update, and leaves the other columns alone |
| TaskTable.Database.WithTransaction | internal/utils/tx.go:7-30 | committed exactly when nothing fails, otherwise the table is as before; a panic passes through |
| TaskTable.Database.GetByUserID | internal/task/repository.go:88-136 | the loop gives every readable row of the user once and no other, in the order of the query; an error exactly when the query fails or breaks off |
| TaskTable.UserListIsComplete | internal/task/repository.go:112-129 | that list has every readable row of the user, as in the table, and no other row; its ids are distinct and stand in the order of the query |
| TaskTable.StatementsKeepIdentity | internal/task/repository.go:25-50 | no statement removes a row or changes its id, user, type or creation time |
| WorkerSafety.DecodeGivesPayload | internal/worker/worker.go:67-75 | a worker reads the payload of the row the message was published for, or nothing when its type cannot be carried |
| WorkerSafety.SaneAfter | internal/worker/worker.go:67-148 | every step keeps messages tied to existing rows with a retry count of 0 to 3 |
| WorkerSafety.NothingLostAfter | internal/worker/worker.go:67-148 | every step keeps each unfinished task accounted for |
| WorkerTheorems.NoTaskIsSilentlyLost | internal/worker/worker.go:67-148 | in every reachable state an unfinished task has a message still to be worked on, a cut-off worker that owes its outcome, a creator about to publish, or went through a named leak, worker phase by worker phase |
| WorkerLeaks.WithoutRedeliveryFourLeaks | internal/worker/worker.go:67-148 | without redelivery of the task the leak is one of four: lost publication, unreadable body, failed republication, failed final marking |
| WorkerLeaks.CutOffWorkerLostLeaksTask | internal/worker/worker.go:92-114 | with redelivery four are not enough: a reachable drained state in which a cut-off worker has reopened a finished task and was then lost |
| WorkerLeaks.DrainedTaskIsFinishedIffNotLeaked | internal/worker/worker.go:67-148 | in a drained pool a task that was not redelivered is finished if and only if it did not leak |
| WorkerTheorems.DrainedPoolHasSettledEveryTask | internal/task/service.go:56-75 | once nothing is queued or about to be published and no worker still has to finish a message, every task is finished or leaked; acknowledgements may have failed |
| WorkerBounds.HandlersPaidForAfter | internal/worker/worker.go:77-147 | the potential behind the bound: no step but a publication or a redelivery raises runs plus attempts left |
| WorkerTheorems.HandlerRunsAreBounded | internal/worker/worker.go:77-147 | handler runs of a task, those of cut-off workers included, are at most 4 plus 4 for each redelivery of it, however often the first transaction fails; of all tasks together at most 4 per publication and redelivery |
| WorkerBoundReached.HandlerBoundIsReached | internal/worker/worker.go:77-147 | the bound is tight: for every number r of redeliveries some run has the handler of a task run 4 + 4r times |
| WorkerRunLengths.HandlersRunSeldom | internal/worker/worker.go:77-147 | the same about the steps of a run themselves |
| WorkerRunLengths.RunsAreShort | internal/worker/worker.go:92-147 | in every run the workers' steps are at most 24 for each publication and redelivery and 3 for each failed first transaction |
| WorkerRunLengths.RetriesRunOutAfterFourFailures | internal/worker/worker.go:116-127 | in every run a task that ends FAILED for want of retries has had four second transactions fail |
| WorkerTheorems.WorkerStepsAreBounded | internal/worker/worker.go:92-147 | worker steps are at most linear in publications, redeliveries and failures of the first transaction, so with finitely many of these every run stops |
| WorkerBounds.WorkersStopExactlyWhenAtRest | internal/worker/worker.go:67-148 | no worker can take a step if and only if all rest and no idle one has a message to take |
| WorkerDiscipline.OneActorExactly | internal/worker/worker.go:92-147 | a step leaves a task with one actor at most (a message copy or a worker that can still write its row) and with none once finished, if and only if it does not queue a message of it again that makes one more: a settled one of a task that is finished or has another actor, or one whose worker goes on and can still write the row |
| WorkerDiscipline.OneActorThroughoutIffUndisturbed | internal/worker/worker.go:92-147 | the same of whole runs: one actor in every state if and only if no step of the run does that |
| WorkerTheorems.NotRedeliveredMeansUndisturbed | internal/worker/worker.go:92-147 | in particular a run that redelivers no message of the task, whatever it redelivers of others |
| WorkerTheorems.OneActorPerTask | internal/task/repository.go:138-182 | a task that no step has harmed has one actor at most and none once finished; result set exactly on SUCCESS, error exactly on FAILED |
| WorkerTheorems.StatusFollowsOrder | internal/task/repository.go:138-182 | whatever the next step, it takes the status of such a task along PENDING, PROCESSING, then SUCCESS or FAILED, or leaves it |
| WorkerTheorems.StatusNeverGoesBack | internal/task/repository.go:138-182 | over any run that does not harm it, its status does not go back and a finished row never changes; other tasks may be redelivered, and so may a copy whose worker is lost before it settles it |
| WorkerReopening.CanReopenIffSomeoneMarks | internal/worker/worker.go:92-147 | in every reachable state, redelivery included: some continuation takes a finished task back to PROCESSING if and only if there is a worker and the task is about to be published, a message of it is queued or held in any phase, or a worker cut off from the broker has received one and not yet marked the task; otherwise it stays finished |
| WorkerReopening.FinishedRowIsFinalIffNobodyWrites | internal/worker/worker.go:92-147 | likewise: no continuation changes a finished row at all if and only if, besides, no cut-off worker can still mark its outcome |
| WorkerReopening.CanFinishIffSomeoneWrites | internal/worker/worker.go:67-148 | in every reachable state: some continuation finishes an unfinished task if and only if the body can carry its type and somebody can still write its row; otherwise it stays unfinished |
| WorkerHarm.HarmIffCanBeTakenBack | internal/worker/worker.go:92-147 | for a task that no step has harmed so far, any next step, and a type the body can carry: the step harms the task if and only if afterwards a run that does not harm it any further can finish it and take it back to PROCESSING |
| WorkerScenarios.LostWorkerReopensTask | internal/worker/worker.go:92-147 | such a step is reachable: a SUCCESS, harmed by nothing before, whose worker is lost before its acknowledgement, and which a run that harms it no further brings back to PROCESSING |
| WorkerScenarios.CutOffWorkerReopensTask | internal/worker/worker.go:104-147 | so is another one: a worker cut off between its handler and its second transaction |
| WorkerWrites.HandlerAnswers | internal/worker/proc.go:11-24 | no error for the four types by name, and for any other the error text that names it |
| WorkerWrites.CreateWritesNewRow | internal/task/service.go:45-52 | creation at any instant adds a PENDING row with the given user and type, created and updated at that instant, and no more |
| WorkerWrites.TransactionsChangeOneRow | internal/task/repository.go:138-182 | a worker's transaction changes the row of its message only, keeps its identity, and sets its time of update |
| WorkerWrites.FirstTransactionWritesRow | internal/worker/worker.go:92-95 | PROCESSING, result and error as they were |
| WorkerWrites.SecondTransactionWritesRow | internal/worker/worker.go:106-113 | SUCCESS with "result.txt" for the four types by name, else FAILED with the error that names the type |
| WorkerWrites.LastTransactionWritesRow | internal/worker/worker.go:117-120 | FAILED with "max retries reached" |
| WorkerOutcomes.MarkedRowIsHonest | internal/worker/worker.go:104-127 | each transaction writes what the handler said, or that four second transactions failed |
| WorkerTheorems.OutcomesAreHonest | internal/worker/worker.go:104-143 | in all runs: SUCCESS implies a known type; the unknown-type error implies an unknown type; "max retries reached" implies at least four failed second transactions |
| WorkerTheorems.UnreadableTaskStaysPending | internal/worker/worker.go:67-75 | a task whose type the body cannot carry stays PENDING for good |
| WorkerRefinement.SequentialOutcomes | internal/worker/proc.go:11-24 | one message at a time, a published task of the four types by name ends SUCCESS with "result.txt", one of any other type FAILED with the error that names it, and the others stay PENDING |
| WorkerRefinement.FinishedTaskHasOutcomeOfItsType | internal/worker/worker.go:104-127 | in every reachable state a finished task has that outcome, unless four of its second transactions have failed |
| WorkerRefinement.FinishedTaskIsAsSequential | internal/worker/worker.go:67-148 | task by task in every reachable state, redelivery included: a finished task that did not run out of retries has the status, result and error that working on the published messages one at a time gives |
| WorkerRefinement.SettledTaskIsAsSequential | internal/worker/worker.go:67-148 | likewise a task that nobody still works on and that did not leak |
| WorkerRefinement.ConcurrentPoolRefinesSequential | internal/worker/worker.go:67-148 | a drained pool of any size without leak or exhausted retries has the whole table of working on the messages one at a time |
| Orchestrator.Orchestrator.CreateTask | internal/task/service.go:40-76 | refuses a bad payload, or takes exactly the steps commit then publish (or their failures); a panic is told apart; reachable states stay reachable |
| Orchestrator.Orchestrator.RunFirstTransaction | internal/worker/worker.go:92-102 | the step taken, the table and the queue for success, error and panic |
| Orchestrator.Orchestrator.RunSecondTransaction | internal/worker/worker.go:106-114 | likewise; the outcome marked is the handler's |
| Orchestrator.Orchestrator.RetryOrGiveUp | internal/worker/worker.go:116-142 | below three retries the message is queued once more with the count one higher, else the row is marked failed for good |
| Orchestrator.Orchestrator.RepublishWithRetry | internal/worker/worker.go:15-38 | the same body with the retry header set to the next count, or nothing when publishing fails |
| Orchestrator.Orchestrator.HandleDelivery | internal/worker/worker.go:67-148 | one turn of the loop takes a run of protocol steps and leaves the table and the queue that its faults call for |
| Orchestrator.Orchestrator.StartWorker | internal/worker/worker.go:40-149 | the loop takes only protocol steps from reachable to reachable states, leaves the table and the queue of its deliveries one after the other, stops early only for an empty queue, a lost channel, a failed acknowledgement or a panic, and a panic ends every worker; with nothing failing and readable bodies it has worked on as many messages as deliveries, in order |
| WorkerShift.ShiftPanicsInLastDelivery | internal/worker/worker.go:67-148 | successive deliveries come to each of them in turn, and they panic if and only if the last one does |
| WorkerShift.UndisturbedShift | internal/worker/worker.go:67-148 | successive deliveries in which nothing fails compute the sequential table and leave the rest of the queue |
| Orchestrator.Orchestrator.StartWorkerUndisturbed | internal/worker/worker.go:67-148 | when nothing fails the loop empties the queue and computes the sequential table; reachable states stay reachable |
| TaskCache.InvariantAfter | internal/task/service.go:78-136 | every step of readers, writers, evictions and clock keeps entries tied to the read they come from |
| TaskCache.StalenessIsBounded | internal/task/service.go:78-106 | what a reader returns was committed at an instant no more than 1 hour and 2 seconds before its lookup, slow readers included |
| TaskCache.StalenessBoundIsReached | internal/cache/task_cache.go:12 | the bound is tight: for any change of a row a run returns the old row exactly 1 hour and 2 seconds after it |
| TaskCache.StaleValuesKeepIdentity | internal/task/service.go:78-136 | cached and returned rows still exist and agree with the table on id, user, type and creation time; lists hold only their user's rows |
| TaskCache.OwnershipTestIsUnaffected | internal/task/controller.go:78 | the ownership test answers alike on a returned row and on the live one |
| MonotoneReads.ReadsAreMonotone | internal/task/service.go:82-105 | of two reads of a task, however far apart in a run that does not disturb it, the later never goes back, and a finished row once read is read for good |
| ReadsTakenBack.DisturbsIffCanReadBack | internal/task/service.go:82-105 | while nothing has disturbed the reads of a task, a next step of the pool, the cache or a reader disturbs them if and only if afterwards an undisturbed run can have a read go back behind an earlier one |
| MonotoneReads.NextReadGoesBackIffStepsAhead | internal/task/service.go:82-105 | a read makes the next one that can read the cache go back if and only if it could neither get nor set a live entry that the row has left behind |
| MonotoneReads.ReadThatStepsAheadIsTakenBack | internal/task/service.go:99-103 | such a read is reachable: it returns PROCESSING and the next one PENDING |
| TaskService.TaskService.GetTask | internal/task/service.go:78-106 | a live entry is returned as it is; otherwise an error when the query fails, not found exactly when the row is missing, else the row, which is then cached for an hour unless setting fails; other keys untouched |
| TaskService.TaskService.GetTasks | internal/task/service.go:108-136 | the live cached list, or each readable row of the user once, in the order of the query, then cached for an hour; an error when the query fails or breaks off |

## Left out

- Floating point in Lua and the decimal text that Redis stores for it: rates and levels are exact reals.
- Two configurations on one user key (`internal/handler/rate_limiter_examples.go:145-152`): isolation allows them, the theorems on levels and expiry are about one configuration.
- The route pipeline: the limiter is modelled from the point where a user id may or may not be in the context; as wired in `internal/handler/handler.go:43-54` it stands without, or before, the middleware that puts it there.
- RateLimiterTtl.TtlIsInvisible: not for every run, because the code reads its clock before Redis executes; ExpiryIsInvisibleIffRefilled has the exact condition and EarlyReadingMakesTtlVisible a run that misses it.
- RateLimiterTtl.RateNotPositive: what EXPIRE does with an argument that is not positive is not part of the repository. When capacity/rate is not positive but above -1, math.ceil may give a negative zero, which some versions of Redis print as `-0` and then refuse; the reply would be an error there, and the model has Allowed or Denied.
- A SET that its caller gives up on after two seconds may still reach Redis later; the staleness bound is about sets that take effect, if at all, before the deadline.
- WorkerTheorems.StatusNeverGoesBack: not for every run, because the updates have no guard on the old status; it excludes, task by task, the steps of HarmIffCanBeTakenBack. CanReopenIffSomeoneMarks says which finished tasks are out of danger.
- MonotoneReads.ReadsAreMonotone: not for every run; it excludes exactly the steps of DisturbsIffCanReadBack. Reads are single steps here (TaskCache has the split ones).
- Commits and publications that report an error and yet happen, or report success and are lost in the broker: an error means no change, and publishing is without confirms in the code as here.
- The order of the queue: any queued message may be delivered to any idle worker, so no theorem relies on an order; the class takes the head.
- Workers inside the class run one delivery at a time, and lose their channel, if at all, right after they received a message; other interleavings, and channels lost later, are those of the protocol's steps, each transaction being one step.
- A worker that is lost, or ends because its channel is lost, is taken to be started again: its slot becomes idle.
- A message with a body that no creator wrote, and a retry header that is not an int32.
- JSON beyond what the body can contain: nested values and literals in unknown members, and keys that differ in case.
- Invalid UTF-8 in a task type: strings are sequences of Unicode characters.
- Column limits (VARCHAR(50), 32-bit ids): an insert that the database refuses is a failed transaction.
- The JSON encoding of cached values is the identity; list rows that fail to scan are left out of the cache machine, but not of GetByUserID and GetTasks.
- JWT, password hashing, users, Gin, the database, Redis and RabbitMQ clients, reconnection, configuration, logging and the simulated sleeps: library calls and I/O, or nothing hard to prove.
