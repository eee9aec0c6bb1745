# A verified model of the asynchronous job runtime

The service accepts user-creation requests asynchronously. A handler stores a
queued job, announces it, puts a work item in a bounded queue and takes the job
back if the queue refuses. A pool of workers, in generations, takes items and
moves each job through a compare-and-set state machine; stopping the pool waits
for the generation, runs one repair pass over what is left active, and makes way
for the next generation. An event hub fans job events out to bounded subscriber
channels.

Each piece is short; what matters holds over all interleavings. The model is a
set of transition systems whose atomic steps are the sections under a lock, the
compare-and-sets, the channel operations and the once-guards, with inductive
invariants and theorems over whole runs. Classes beside them have the source's
fields and methods. Each method is proved to perform steps of its transition
system, or to compute the function the system or the laws are about; where others
can come in between, what they do is a parameter.

| file | what it holds |
|---|---|
| Runs | runs of a transition system and the induction over them |
| Jobs, JobStore, SqlJobs | job state machine, map-backed and SQL-backed repository, the service's check-then-update |
| Users | user repository and CreateUser |
| Queue | bounded queue with the admission barrier |
| WorkerPool, PoolLaws | Start, Stop, generations, repair; what canceling and stopping amount to |
| AsyncRuntime | all of these in one transition system, with the handlers and the worker loop |
| AtMostOnce, Conservation, Provenance, Admission, Shutdown, History | safety theorems about that system |
| Progress, StopProgress | workers, handlers and Stop can always go on to their ends |
| Subscribers | the combined system together with the event hub: what subscribers get |
| AsyncObjects | worker loop and Create handler as programs over the objects |
| EventHub, HubObject | event hub, as a system and as an object |
| GrpcRuntime | lifecycle of the gRPC runtime |
| LogThrottle | compare-and-set log throttle of the telemetry error handler |
| Text, ETag | string helpers; entity-tag lists and If-None-Match |
| JwtKeys | signing-key list, printer and parser |
| Backoff | retry loop and 64-bit backoff |
| ShutdownErrors | classification of shutdown errors, and cleanup's own errors |

Properties that are false of the code as first stated come with a concrete run
or input and with the exact condition under which they hold:

- Stop returning nil does not by itself mean that every job is terminal: a pool
  without a generation, or with one already repaired, returns nil over a queued
  job (`Shutdown.ShutdownCompleteness`, `Shutdown.StopCanReturnNilOverAQueuedJob`).
- A returned Shutdown of a gRPC runtime does not always mean that `done` is
  closed. It does if and only if, before the call, the runtime is not stopped or
  `done` is closed already (`GrpcRuntime.DoneAtReturnExact`,
  `GrpcRuntime.SecondShutdownCanReturnEarly`).
- The header splitter treats a backslash as an escape, so a tag that ends in an
  odd number of backslashes merges with the next one (`ETag.SplitExact`,
  `ETag.BackslashSwallowsNextTag`).
- The backoff comment promises a delay capped by the maximum; once the product
  overflows 64 bits there is no delay at all, and up to there the promise holds
  (`Backoff.BoundMeetsPromise`, `Backoff.LargeAttemptsDoNotWait`).
- The service's pre-check can refuse a transition that the guarded update would
  have won, in exactly two cases: the job is not stored yet at the read, or success
  is asked of a job still queued (`JobStore.PrecheckExact`,
  `JobStore.PrecheckMissesALaterSave`, `JobStore.PrecheckExceptionIsReachable`).
- Saving a user under an explicit identifier that was never issued breaks the
  freshness of later identifiers, and nothing else does (`Users.SaveKeepsOk`,
  `Users.ExplicitIdIsIssuedAgain`).

Where code and documentation disagree the model follows the code. README.md:622
of the repository has the event hub closed before the servers are shut down; the
code (internal/api/server.go:251-260) closes it last. In the model the hub may
close at any time, so the theorems cover both.

## Model

| member | source | states |
|---|---|---|
| `Conservation.UsersAreConserved` | internal/workerpool/workerpool.go:256-306 | Over every run of handlers, workers and Start/Stop cycles, a user created by a worker has exactly one succeeded job carrying its ID or is held by exactly one worker between CreateUser and SetSucceeded, never both; every succeeded job carries such a user, so different succeeded jobs carry different users |
| `Conservation.SetSucceededNeverFails` | internal/workerpool/workerpool.go:289-293 | In every reachable state a worker that holds a created user passes the service check and wins the SetSucceeded update, whatever the others do |
| `Conservation.EventOrder` | internal/workerpool/workerpool.go:260-306 | Each job's published events are always a prefix of queued-running-succeeded, queued-running-failed or queued-failed and never ahead of the stored status; until the hub closes nothing offered is missing |
| `Subscribers.SubscribersSeeTheJobsLife` | internal/stream/stream.go:73-148 | Over every run of the runtime together with its hub, what any subscriber of a job was ever sent is an order-preserving selection, each event at most once, of a prefix of queued-running-succeeded, queued-running-failed or queued-failed, never ahead of the stored status |
| `Subscribers.KeepsInv` | internal/stream/stream.go:130-148 | Every step of runtime and hub together keeps the hub's publish log equal to the events the runtime's components published before the hub closed |
| `Subscribers.HubHoldsNobodyUp` | internal/stream/stream.go:130-148 | Whenever the hub's mutex is free, every step the runtime can take can be taken with its event published and the mutex free again: publishing waits for no subscriber |
| `Conservation.KeepsInv` | internal/workerpool/workerpool.go:246-349 | Every step of every component keeps the joint invariant: each job has one holder, the holder's program point fits the stored job and its events, and users fit their jobs |
| `Conservation.OneJobPerUser` | internal/workerpool/workerpool.go:275-293 | A worker-created user is either reported by exactly one succeeded job or in exactly one worker's hands |
| `Conservation.TurnFits` | internal/workerpool/workerpool.go:246-306 | Whatever one turn of the worker loop does to its job and its event log, the two still fit the place the worker is at next |
| `Conservation.RepairHitsWaiting` | internal/workerpool/workerpool.go:312-330 | With no worker live, every active job is one still queued at a handler or in the channel, so repair never fails a running job under a worker |
| `Provenance.UsersComeFromTheirJobs` | internal/workerpool/workerpool.go:275-289 | Even with redelivery, a worker-created user is stored for good with exactly the payload of the one item accepted for its job, and any two users' addresses differ in length or in some character after case folding |
| `AtMostOnce.AtMostOnceOverRuns` | internal/workerpool/workerpool.go:246-275 | Over every run, any number of generations and a channel that may redeliver accepted items at will, CreateUser is called at most once per job, only for admitted jobs and never for deleted ones |
| `AtMostOnce.EachCallIsFirst` | internal/workerpool/workerpool.go:256-275 | Along every such run each step makes no call or one for a job not called for before, not deleted and not failed by repair up to then |
| `AtMostOnce.CallIsFirst` | internal/workerpool/workerpool.go:260-275 | A worker about to call CreateUser does so for a job with no earlier call, repair or deletion |
| `AtMostOnce.KeepsSafe` | internal/workerpool/workerpool.go:246-306 | Every step keeps the permit discipline: the winning start transition is the only way to a call and a job with a permit or a call is never queued again |
| `History.StoredOrDeleted` | internal/routes/users_handler.go:76-84 | Over every run an issued identifier is stored or was deleted by a rollback, never both |
| `History.RepairFailsTheActive` | internal/workerpool/workerpool.go:312-330 | A repair pass fails exactly the queued and running jobs with the shutdown problem, records them, and reports their number |
| `History.SyncCreateTakesTheAddress` | internal/routes/users_handler.go:98-105 | After a synchronous creation the address is taken, by the new user or by the one who had it |
| `History.AnythingMayComeAgain` | internal/workerpool/workerpool.go:250-255 | The faulty channel of the at-most-once and provenance theorems is as faulty as can be: any item ever accepted may turn up again at any time |
| `Shutdown.ShutdownCompleteness` | internal/api/server.go:232-268 | In every reachable state with admission closed and handlers gone, a Stop that returns nil leaves every stored job terminal and the repository unchanged on every continuation, if and only if the current generation is still to be repaired or nothing is active already |
| `Shutdown.RunningIsUnrepaired` | internal/workerpool/workerpool.go:161-177 | A pool with a generation and no Stop under way, the situation in which cleanup calls Stop, meets that condition |
| `Shutdown.StopIsEnough` | internal/workerpool/workerpool.go:127-159 | Under the condition the guarantee holds for every continuation |
| `Shutdown.StopIsNotEnough` | internal/workerpool/workerpool.go:127-159 | Without the condition some continuation returns nil over an active job |
| `Shutdown.StopCanReturnNilOverAQueuedJob` | internal/workerpool/workerpool.go:127-140 | A concrete reachable state: admission closed, handlers gone, no generation, one queued job, and Stop returns nil over it |
| `Shutdown.FrozenForever` | internal/api/server.go:236-258 | Once admission is closed and all jobs are terminal, no later step, a restart draining stale items included, changes the repository |
| `StopProgress.StopIsNeverStuck` | internal/workerpool/workerpool.go:127-224 | From every reachable state a new Stop call can go through and return nil, whatever workers hold and whichever other Stop calls are under way |
| `StopProgress.StopCanReturnNil` | internal/workerpool/workerpool.go:140-224 | So can every Stop call that is already inside a generation |
| `Admission.AdmissionOverRuns` | internal/routes/users_handler.go:71-87 | Over every run each stored job was accepted by the queue exactly once or is held by exactly one handler in flight, not both; accepted items are the received ones followed by the buffered ones, within capacity |
| `Admission.NothingAcceptedAfterStopAccepting` | internal/queue/queue.go:30-63 | In the whole system nothing is accepted after some StopAccepting has returned |
| `Queue.Admission` | internal/queue/queue.go:30-63 | With the read/write lock as steps: FIFO within capacity, and no Enqueue succeeds after StopAccepting has returned |
| `Queue.KeepsInv` | internal/queue/queue.go:17-63 | Every lock, check, send and receive step keeps the queue invariant: a producer that saw the queue open still sees it open when it sends |
| `Queue.WorkQueue.StopAccepting` | internal/queue/queue.go:30-35 | Is a run of the lock-level system and leaves the queue closed with everything else unchanged |
| `Queue.WorkQueue.Enqueue` | internal/queue/queue.go:37-63 | Which of the four results is returned, that success appends the item and that every refusal changes nothing; the call is a run of the lock-level system |
| `WorkerPool.RepairExclusion` | internal/workerpool/workerpool.go:127-224 | Over every run repair is entered at most once per generation, for strictly newer generations, and never while a worker of any generation is in its loop |
| `WorkerPool.SameOutcome` | internal/workerpool/workerpool.go:207-224 | All Stop calls that got past a generation's done channel return the same outcome, however far apart they return |
| `WorkerPool.LateStopIsHarmless` | internal/workerpool/workerpool.go:207-224 | A Stop call of an old generation never alters a newer one: it moves its own program counter and at most the old cancel flag |
| `WorkerPool.RepairFindsNoWorker` | internal/workerpool/workerpool.go:207-216 | During a repair pass no worker is live and the repaired generation is still the current one |
| `WorkerPool.LiveIsCurrent` | internal/workerpool/workerpool.go:91-125 | A live worker always belongs to the current generation |
| `WorkerPool.KeepsInv` | internal/workerpool/workerpool.go:91-224 | Start, Stop's sections, worker exits and the done close keep the pool invariant in every interleaving |
| `WorkerPool.ResultsLast` | internal/workerpool/workerpool.go:207-224 | A completed repair outcome and a returned Stop result never change later in a run |
| `PoolLaws.CanceledExactly` | internal/workerpool/workerpool.go:91-147 | Over every run a generation is canceled if and only if its parent context has ended or a Stop call of it has canceled it; so it is live when it starts |
| `PoolLaws.StartGives` | internal/workerpool/workerpool.go:91-125 | Start leaves the pool alone or makes a new current generation, not canceled, not stopping, with as many live workers as asked for |
| `PoolLaws.StoppingIsCanceled` | internal/workerpool/workerpool.go:127-147 | Over every run a generation that is being stopped is canceled, or some Stop call is about to cancel it |
| `PoolLaws.FirstStopCancels` | internal/workerpool/workerpool.go:140-147 | The Stop call that found the pool running has canceled the generation by the time it goes on |
| `PoolLaws.LaterStopRepeats` | internal/workerpool/workerpool.go:127-139 | Over every run a Stop that finds no generation answers with the last generation's repair outcome, or with nil if there never was a generation |
| `PoolLaws.OutsideEvents` | internal/workerpool/workerpool.go:148-158 | The parent context of any generation may end at any time, and a waiting Stop call may run out of time, which changes nothing but its own answer |
| `WorkerPool.WorkerPool.StartWorkers` | internal/workerpool/workerpool.go:91-125 | Starts a generation exactly when there is none or the old one drained without a Stop, and says which refusal applies otherwise; PoolLaws.StartGives says what a started generation is |
| `WorkerPool.WorkerPool.WorkerDone` | internal/workerpool/workerpool.go:179-189 | Takes this worker out of the live set, counts down, and closes done exactly when the count reaches zero; a run of the pool's steps |
| `WorkerPool.WorkerPool.EnterStop` | internal/workerpool/workerpool.go:127-147 | Picks the generation to wait for, or the last outcome when there is none, and marks the pool stopping |
| `WorkerPool.WorkerPool.FinishStop` | internal/workerpool/workerpool.go:207-224 | Returns the generation's outcome and retires the generation unless a newer one is current, which is left alone |
| `AsyncObjects.ProcessTurns` | internal/workerpool/workerpool.go:251-306 | Handling one item as a whole is the same as the system's worker steps run in order from the receive back to the select |
| `AsyncObjects.ItemOutcome` | internal/workerpool/workerpool.go:251-306 | The full table of what handling one item does: success with a user made from the payload, failure on a taken address, failure on cancellation, or nothing; no other job is touched and the events match |
| `AsyncObjects.AdvanceIsTurn` | internal/workerpool/workerpool.go:251-306 | A worker step of the whole system is, seen from that worker, one turn of the loop body |
| `Progress.WorkerFinishes` | internal/workerpool/workerpool.go:246-306 | In any state an idle worker with an item in the channel can take it and handle it to the end, with exactly the effect of handling it alone |
| `Progress.HandlerFinishes` | internal/routes/users_handler.go:71-87 | In any state a request can run through Create to its end: stored and queued if the queue is open with room and the request alive, otherwise with nothing left but the used-up identifier |
| `Progress.AJobCanSucceed` | internal/workerpool/workerpool.go:91-306 | A fresh system can carry a request to a succeeded job with its user stored and all three events published |
| `AsyncObjects.Worker.Process` | internal/workerpool/workerpool.go:255-306 | The loop body over the repository objects has exactly the effect ItemOutcome describes and ends the loop only when canceled |
| `AsyncObjects.Worker.WorkerLoop` | internal/workerpool/workerpool.go:246-310 | The select loop over the objects computes the loop that AsyncObjects.WorkHandlesAll, AsyncObjects.WorkEndsWhenCanceled and AsyncObjects.WorkInTurn describe |
| `AsyncObjects.WorkHandlesAll` | internal/workerpool/workerpool.go:246-310 | A live worker that looks at the channel n times loses it exactly its first n items, carries every queued job among theirs to success with a stored user or to a conflict failure with the matching events, and touches no other job and no existing user |
| `AsyncObjects.WorkEndsWhenCanceled` | internal/workerpool/workerpool.go:252-259 | A worker that finds its context ended with an item in hand fails the item's active job with the shutdown problem, leaves the loop, and leaves the rest of the channel and of the jobs alone |
| `AsyncObjects.WorkInTurn` | internal/workerpool/workerpool.go:246-310 | The loop's looks compose: what it does on a sequence of looks is what it does on the live first part followed by the rest |
| `AsyncObjects.Worker.MarkJobFailed` | internal/workerpool/workerpool.go:332-349 | Publishes the failure only if the guarded update was won, and changes nothing otherwise |
| `AsyncObjects.Worker.CreateUser` | internal/service/service.go:34-50 | The check followed by the save, with the reply of the first that refuses |
| `AsyncObjects.CreateMoves` | internal/routes/users_handler.go:71-87 | For every result of Enqueue the handler as a whole is the system's handler steps run in order, from the save to the accepted item or the rollback |
| `AsyncObjects.HandleIsMove` | internal/routes/users_handler.go:71-87 | A handler step of the whole system is, seen from that handler, one of these steps |
| `AsyncObjects.UsersHandler.CreateAsync` | internal/routes/users_handler.go:71-87 | Accepted: the job is stored as queued and its item is last in the channel; refused for any reason: jobs and channel are as before; the identifier is used up and the queued event published either way; the call is the system's handler steps in order |
| `Jobs.TerminalIffStuck` | internal/entity/job.go:44-67 | The statuses called terminal are exactly those no transition leads out of |
| `Jobs.TransitionsClimb` | internal/entity/job.go:26-67 | Every legal transition strictly raises a job's rank, so no job returns to an earlier status |
| `JobStore.ServiceMoveIsOneStepOrNone` | internal/service/jobService.go:53-68 | With arbitrary operations between read and update, success is one legal step of that one job in the state the update found; a refusal by the update leaves exactly what the others did, a refusal by the check exactly what was read |
| `JobStore.RefusalTells` | internal/store/jobrepo/memory_job_repo.go:118-137 | A refused update reports a missing job, or the status it found, the status it would have written and the transition asked for, in that order |
| `JobStore.PrecheckExact` | internal/service/jobService.go:53-68 | The service's pre-check costs a transition the update would have won in exactly two cases, both visible at the read: the job is not stored yet, or success is asked of a job still queued |
| `JobStore.PrecheckExceptionIsReachable` | internal/service/jobService.go:53-68 | A concrete run of the second case: the job starts running after the read |
| `JobStore.PrecheckMissesALaterSave` | internal/service/jobService.go:53-57 | A concrete run of the first case: the job is saved after the read |
| `JobStore.AtMostTwoTransitions` | internal/store/jobrepo/memory_job_repo.go:92-157 | Over any operations a job changes status at most twice, and no more often than its rank leaves |
| `JobStore.LaterJob` | internal/store/jobrepo/memory_job_repo.go:26-157 | Over any operations ranks never fall, identifiers are never reused, and a terminal job is later gone or unchanged |
| `JobStore.ExecOne` | internal/store/jobrepo/memory_job_repo.go:26-157 | One operation leaves a job alone, inserts it, deletes it or moves it along one edge of the table, and keeps result and error in agreement with the status |
| `JobStore.MemoryJobRepository.Save` | internal/store/jobrepo/memory_job_repo.go:26-38 | A zero ID gets the next identifier; an explicit one overwrites and does not advance the counter |
| `JobStore.MemoryJobRepository.Delete` | internal/store/jobrepo/memory_job_repo.go:64-73 | Removes that job only, or reports it missing and changes nothing |
| `JobStore.MemoryJobRepository.Transition` | internal/store/jobrepo/memory_job_repo.go:92-137 | The compare-and-set: not found, conflict with the found status, or exactly the intended fields changed |
| `JobStore.MemoryJobRepository.FailActiveJobs` | internal/store/jobrepo/memory_job_repo.go:139-157 | The loop fails exactly the queued and running jobs, in any map order, and returns their number |
| `JobStore.JobService.Transition` | internal/service/jobService.go:53-68 | Read, check and guarded update over the repository object, with other goroutines' operations in the gap |
| `SqlJobs.BackendsAgree` | internal/store/jobrepo/sqlx.go:42-349 | For every sequence of inserts, deletes, transitions and bulk failures the SQL and the map repository give the same answers and counts and end with the same jobs |
| `SqlJobs.ExecAgrees` | internal/store/jobrepo/sqlx.go:245-349 | One operation on agreeing states gives the same reply and agreeing states |
| `SqlJobs.MoveAgrees` | internal/store/jobrepo/sqlx.go:245-320 | A guarded UPDATE, its row count and the follow-up read give the same result as the compare-and-set |
| `SqlJobs.FailActiveAgrees` | internal/store/jobrepo/sqlx.go:322-349 | The bulk UPDATE affects exactly the jobs, and as many, as the loop fails |
| `SqlJobs.GuardAgrees` | internal/store/jobrepo/sqlx.go:42-85 | The status literals of the WHERE clauses are exactly the transition table |
| `SqlJobs.SqlJobRepository.Save` | internal/store/jobrepo/sqlx.go:175-223 | The INSERT arm issues the next identifier; the UPDATE arm reports a missing row, unlike the map repository |
| `SqlJobs.SqlJobRepository.Transition` | internal/store/jobrepo/sqlx.go:245-320 | UPDATE with a status guard, then the read that tells conflict from not found |
| `SqlJobs.SqlJobRepository.FailActiveJobs` | internal/store/jobrepo/sqlx.go:322-349 | One UPDATE over all active rows, returning the number of rows |
| `Users.CreateUserExact` | internal/service/service.go:34-50 | Whatever others save between check and save, no second user with the address appears, the call succeeds exactly when the address is free at the save, success adds exactly the new user, and a refusal leaves exactly what was found |
| `Users.CreateUserRefuses` | internal/service/service.go:34-50 | An undisturbed CreateUser refuses, changing nothing, if and only if some stored address has the same length and agrees character by character after case folding; otherwise it stores the user under the next identifier |
| `Users.EqualFoldExact` | internal/store/userrepo/memory_user_repo.go:63-67 | Two addresses count as the same exactly if they agree character by character after folding |
| `Users.SaveKeepsOk` | internal/store/userrepo/memory_user_repo.go:59-85 | A save never touches an existing user and never takes an identifier in use; it refuses a taken address before a taken identifier and stores the user otherwise as given, with version one for zero; identifiers stay issued here and addresses unique up to case exactly unless a user is stored under an explicit identifier that was never issued |
| `Users.ExplicitIdIsIssuedAgain` | internal/store/userrepo/memory_user_repo.go:69-84 | A concrete pair of saves: an identifier taken without being issued is issued next, and its user is overwritten |
| `Users.MemoryUserRepository.ExistsByEmail` | internal/store/userrepo/memory_user_repo.go:98-108 | The scan finds an address exactly when some user's agrees with it character by character after case folding |
| `Users.MemoryUserRepository.Save` | internal/store/userrepo/memory_user_repo.go:59-85 | Conflict, already exists, or stored under a fresh identifier with version one |
| `EventHub.HubSafety` | internal/stream/stream.go:73-156 | Over every interleaving of Subscribe, Publish, unsubscribe and Close: replay under the mutex always finds room, no send meets a closed channel, no channel is closed twice, the counter equals the registered entries whenever the mutex is free, nothing is registered once Close has finished |
| `EventHub.HubDelivery` | internal/stream/stream.go:81-156 | What was ever put in a channel is the last min(n, buffer) events published before it subscribed followed by an order-preserving subsequence of later ones; live enqueues plus drops equal the summed fan-out |
| `EventHub.KeepsTidy` | internal/stream/stream.go:73-234 | Every step keeps registration, counter and closing state consistent |
| `EventHub.KeepsChans` | internal/stream/stream.go:81-148 | Every step keeps every channel's contents explained by the publish log |
| `EventHub.KeepsHistory` | internal/stream/stream.go:150-156 | The replay history of a job is always the last buffer-many of its published events |
| `EventHub.KeepsFanOut` | internal/stream/stream.go:130-148 | Each step keeps live enqueues plus drops plus sends still to do equal to the fan-out |
| `EventHub.ReplayHasRoom` | internal/stream/stream.go:92-94 | A replay in progress can always send its next event or is done, so it cannot block under the mutex |
| `HubObject.StreamHub.Subscribe` | internal/stream/stream.go:73-128 | Refused exactly when closed; otherwise a fresh channel holding the history, one more subscriber and no other channel touched; a run of the hub's steps |
| `HubObject.StreamHub.Publish` | internal/stream/stream.go:130-148 | Every subscriber of the job with room gets the event, the full ones are counted as drops, others are untouched; nothing happens on a closed hub |
| `HubObject.StreamHub.Unsubscribe` | internal/stream/stream.go:101-123 | Removes that registration once; a second call finds nothing |
| `HubObject.StreamHub.Close` | internal/stream/stream.go:208-234 | The call that wins the flag closes every registered channel exactly once and leaves nothing registered; every other call, even one that comes before the winner has the lock, changes nothing |
| `HubObject.StreamHub.Receive` | internal/stream/stream.go:81-94 | A consumer takes the oldest buffered event of its channel; the others are untouched |
| `HubObject.StreamHub.ReplayAll` | internal/stream/stream.go:92-94 | The replay loop puts exactly the history in the new channel without ever finding it full |
| `HubObject.StreamHub.FanOut` | internal/stream/stream.go:139-146 | The loop over subscribers, in any order, serves each of them once and counts the full ones |
| `GrpcRuntime.Lifecycle` | internal/transport/grpcserver/runtime.go:142-275 | Over all interleavings the state only moves forward, done and gracefulDone close at most once, the error is written at most once and never after done has closed |
| `GrpcRuntime.ShutdownOutlivesServe` | internal/transport/grpcserver/runtime.go:172-200 | For a started runtime every returned Shutdown implies that Serve has finished and done is closed |
| `GrpcRuntime.ShutdownAnswers` | internal/transport/grpcserver/runtime.go:189-199 | Over every run a returned Shutdown answers with the context's error if and only if its context ended before the graceful stop and it forced the stop |
| `GrpcRuntime.ShutdownCanReturn` | internal/transport/grpcserver/runtime.go:172-200 | From every state any Shutdown under way can still return, and one still waiting can return either way |
| `GrpcRuntime.DoneAtReturnExact` | internal/transport/grpcserver/runtime.go:172-261 | A caller may rely on done being closed when its Shutdown returns, on every continuation, if and only if before the call the runtime is not stopped or done is closed already |
| `GrpcRuntime.SecondShutdownCanReturnEarly` | internal/transport/grpcserver/runtime.go:240-246 | The concrete run that reaches a stopped runtime with done still open: a second Shutdown of a never-started runtime returns before done is closed |
| `GrpcRuntime.KeepsInv` | internal/transport/grpcserver/runtime.go:142-275 | Every step keeps state, error, close counts and callers consistent |
| `GrpcRuntime.Server.Start` | internal/transport/grpcserver/runtime.go:142-170 | Starts a new runtime and refuses every other |
| `GrpcRuntime.Server.BeginShutdown` | internal/transport/grpcserver/runtime.go:237-261 | Tells whether to wait, moves to stopping or stopped, and, whatever the others do between setting the state and the close, closes done of a runtime that never started; a run of the lifecycle's steps that takes nothing back |
| `GrpcRuntime.Server.FinishServe` | internal/transport/grpcserver/runtime.go:263-275 | Records the error exactly when the runtime was running and Serve failed, and closes done |
| `LogThrottle.ThrottleOverRuns` | internal/telemetry/runtime.go:483-513 | For any number of concurrent calls winners are at least one interval apart, each finished call was logged or suppressed exactly once, and reported plus pending equals the suppressed total up to calls in flight |
| `LogThrottle.KeepsDecided` | internal/telemetry/runtime.go:495-506 | Every step keeps each decided call in exactly one of the two lists, once |
| `LogThrottle.ErrorHandler.Handle` | internal/telemetry/runtime.go:483-513 | Whatever other calls do in the gaps, one call is a run of the system that ends logged or suppressed, with the loaded time that decided it and the count it reports; undisturbed, it logs exactly when the permitted time has come; a nil error changes nothing and a missing logger only counts the failure |
| `LogThrottle.ErrorHandler.Decide` | internal/telemetry/runtime.go:493-506 | The compare-and-set loop ends, after any interference, in a win over a time that had come and still stood, or in a suppression by one that had not |
| `ETag.SplitExact` | internal/httputils/utils.go:314-351 | Splitting a header of quoted tags with any white space at the commas gives exactly those tags if and only if every tag but the last ends in an even number of backslashes; commas inside tags do not matter |
| `ETag.MatchesAnyTag` | internal/httputils/utils.go:263-312 | Such a header matches an entity tag, weak or not, if and only if some tag of the list has the same opaque text |
| `ETag.ItemsAreClean` | internal/httputils/utils.go:333-350 | Whatever the header, every item of the split is trimmed and none is blank |
| `ETag.MatchesExact` | internal/httputils/utils.go:263-312 | Such a header matches a user's tag if and only if some tag is weakly equal to it, per section 8.8.3.2 of RFC 9110 |
| `ETag.NormalizeExact` | internal/httputils/utils.go:291-312 | A text stands for a quoted tag exactly if it is that tag, maybe after a weak prefix in either case, between white space |
| `ETag.StarAndBlank` | internal/httputils/utils.go:263-270 | A star matches every tag and a blank header none, white space around or not |
| `ETag.OnlyTagsMatch` | internal/httputils/utils.go:272-288 | What is not a tag is matched by a star only, and an item that is not a tag matches nothing |
| `ETag.HeaderMayBePadded` | internal/httputils/utils.go:263-270 | White space around the whole header does not matter |
| `ETag.NoBackslashCloses` | internal/httputils/utils.go:314-351 | Tags without backslashes meet the condition |
| `ETag.BackslashSwallowsNextTag` | internal/httputils/utils.go:325-332 | A concrete list on which the splitter merges two tags |
| `ETag.UserETagInjective` | internal/httputils/utils.go:246-261 | Different users or versions have different tags |
| `ETag.UserETagText` | internal/httputils/utils.go:246-256 | The documented format: weak, quoted, and the two numbers in canonical decimal, which read back |
| `ETag.SplitHeaderList` | internal/httputils/utils.go:314-351 | The scanning loop computes the split the laws are about |
| `JwtKeys.ParseExact` | internal/config/config.go:1116-1146 | The parser returns a key list exactly when the list is well formed and the text writes it, up to white space before a kid, before a colon and after a secret |
| `JwtKeys.PrintParse` | internal/config/config.go:1100-1146 | Parsing the printed form returns the list if and only if it is nonempty with distinct trimmed kids free of comma and colon and nonempty secrets free of commas and trailing space |
| `JwtKeys.ParsePrintParse` | internal/config/config.go:1100-1146 | Whatever was accepted prints to a text that parses to the same list |
| `JwtKeys.PrintIsTight` | internal/config/config.go:1105-1111 | The printed form has no white space before a kid, whatever the kid was |
| `JwtKeys.ParseErrors` | internal/config/config.go:1126-1142 | Of the six errors only empty item, bad format and duplicate kid can occur |
| `JwtKeys.ParseErrorExact` | internal/config/config.go:944-1146 | Which text gives which error: a blank item anywhere; or else the fault of the first item that has one, a shape other than something-colon-something before a kid taken by an earlier item |
| `JwtKeys.SplitCSVStrict` | internal/config/config.go:944-955 | Refuses if some item is blank, otherwise returns all items trimmed, in order |
| `Text.AsciiSpaces` | internal/config/config.go:947-947 | Of the ASCII characters exactly the blank and the five that move the cursor count as white space |
| `JwtKeys.JoinJWTKeys` | internal/config/config.go:1100-1114 | The builder loop produces the printed form the round-trip laws are about |
| `JwtKeys.ParseJWTKeys` | internal/config/config.go:1116-1146 | The loop with its seen map computes the parse the laws are about, errors in the same order |
| `Backoff.BackoffWithJitter` | internal/outbound/profile_retry.go:186-207 | The drawn delay of the wrapping loop, never negative and never above the capped product, and zero once the product does not fit |
| `Backoff.BoundExact` | internal/outbound/profile_retry.go:186-200 | The bound the wrapping loop computes is the capped product while the product fits in 64 bits and zero otherwise |
| `Backoff.Doubled` | internal/outbound/profile_retry.go:187-194 | The doubling loop gives the exact product while it fits in 64 bits and nothing positive after that |
| `Backoff.ProductIsPower` | internal/outbound/profile_retry.go:187-194 | The doubled delay is base times two to the attempt minus one |
| `Backoff.BoundMeetsPromise` | internal/outbound/profile_retry.go:187-197 | The bound that the wrapping loop and the cap compute is the documented one, base doubled per attempt and capped, if and only if the product fits in 64 bits |
| `Backoff.LargeAttemptsDoNotWait` | internal/outbound/profile_retry.go:187-200 | A concrete client that waits up to its cap at attempt 34 and not at all at attempt 35 |
| `Backoff.DelayRange` | internal/outbound/profile_retry.go:195-207 | A drawn delay is never negative and, with a positive cap, never above it |
| `Backoff.FullJitter` | internal/outbound/profile_retry.go:202-206 | Every delay from zero to the bound can be drawn |
| `Backoff.Wrap64Exact` | internal/outbound/profile_retry.go:193-193 | The modelled arithmetic is two's complement: wrapping changes a number by a multiple of two to the 64 |
| `Backoff.PanicExact` | internal/outbound/profile_retry.go:203-205 | The draw panics exactly for an uncapped largest base delay at the first attempt |
| `Backoff.FetchProfile` | internal/outbound/profile_retry.go:56-102 | At most maxAttempts calls; every call before the last failed with a timeout, a network error or a 5xx; a failure returned early with time left is none of these; the result is the last call's unless the context ended; waits happen only in a live context with time for them and add up to at most their number times the cap |
| `Backoff.NewClient` | internal/outbound/profile_retry.go:37-53 | The constructor's clamps give a usable client, one attempt and no delay in place of what is not usable, and leave usable settings alone |
| `ShutdownErrors.HasShutdownOutcomeExact` | internal/api/server.go:322-352 | For every finite error tree, true if and only if some node is a component error with that outcome |
| `ShutdownErrors.OverallOutcomeExact` | internal/api/server.go:309-320 | Graceful if and only if both errors are nil, otherwise the most severe of forced, timed out and failed present in the cleanup tree, failed by default |
| `ShutdownErrors.Cleanup` | internal/api/server.go:232-268 | The joined error is nil exactly when every component was fine and holds every error a component returned; the summary it leads to is forced exactly when a server or the gRPC runtime passed its deadline and timed out exactly when only the pool did |
| `ShutdownErrors.ServerHas` | internal/api/server.go:389-424 | An HTTP server contributes forced exactly when its Shutdown passed the deadline, and never timed out |
| `ShutdownErrors.ServerKeeps` | internal/api/server.go:397-420 | A failed HTTP server's error holds what Shutdown returned and, if Close failed too, what Close returned |

## Left out

- HTTP, TLS, gRPC transport, SSE writing, protobuf, logging and metrics: foreign libraries; `http.Server.Shutdown`, `Serve` and `GracefulStop` appear as steps or replies.
- Contexts, deadlines and clocks: cancellation and timeouts are steps that may happen at any time, clock readings and random draws are parameters.
- The v2 Create handler performs the same steps as the modelled one.
- Aliasing: jobs are values here, so cloneJob's protection against shared references has nothing to protect; update in place of the repositories and of the hub is modelled as reassigned maps.
- The combined system uses the map-backed repositories; the SQL repository is tied to the map-backed one over sequential runs only, with JSON encoding taken as lossless and identifiers taken as consecutive.
- Save with a nonzero ID is described on both repository objects, where it differs, and is not an operation of the runs: the application never does it.
- ToJobProblem: every CreateUser failure in the map-backed setting is a conflict, and its problem is one constant.
- An unbuffered queue: with capacity zero the model never accepts, while a Go channel of capacity zero could hand over directly; the configuration requires a positive size.
- Strings are sequences of Unicode characters; malformed UTF-8 is not modelled. Case folding is any function that picks a representative of each folding orbit.
- The hub's map of maps is one map from subscriber to job, and the once-guard of the unsubscribe closure is not needed for the property it protects.
- HubObject.StreamHub.Publish: one call at a time, as are the other hub methods; interleavings with receives and with Close are in the transition system only.
- AsyncObjects.Worker.WorkerLoop: runs by itself over the objects; its interleaving with other goroutines is the transition system's Advance steps, which AsyncObjects.AdvanceIsTurn and AsyncObjects.ProcessTurns tie to it.
- AsyncObjects.UsersHandler.CreateAsync: runs by itself; its interleaving with others is the system's Handle steps, which AsyncObjects.HandleIsMove and AsyncObjects.CreateMoves tie to it. Request decoding, validation and authentication come before it and are not modelled.
- LogThrottle.ErrorHandler.Handle: the 64-bit counters and times do not wrap.
- Subscribers.SubscribersSeeTheJobsLife: a publisher goes on as soon as its event is recorded and does not wait for the fan-out; this allows more interleavings than the code has.
- WorkerPool.WorkerPool.EnterStop: only the sections of Stop under the mutex are methods; the wait between them is steps of the transition system.
- ShutdownErrors.Cleanup: foreign errors are taken to carry no component error; custom As methods of foreign errors are not modelled.
- Conservation.UsersAreConserved: is about a channel that delivers each accepted item once; only the at-most-once and provenance theorems also cover redelivery.
- Backoff.NewClient: time.Duration settings are taken to be at most the largest 64-bit value, as their type has it.
- MemoryUserRepository.Update and Delete: outside what the workers and handlers modelled here call.
- Retry-After arithmetic, bulkhead gauge, JWT verification, role checks, CORS, proxies and configuration loading: settled branch by branch, they would add easy members only.
