# A verified model of the job scheduler's run lifecycle

The repository is a distributed job scheduler: a FastAPI service and a leader-elected scheduler
create rows in `job_runs`, Redis carries run ids on a dispatch stream and in a delayed set, and
worker replicas claim, execute, retry, cancel and fan out runs along job dependencies. This
project models that machinery in Dafny and proves what its parts guarantee together: what every
interleaving of processes keeps, what can be lost and when, which graphs a trigger accepts, when
a retry may appear, and which of the documented promises hold only under a condition.

## How the model is organised

| module | what it is |
|---|---|
| `Collections`, `Runs`, `RetryPolicy` | shared notions; the tables and the queries on them; retry and backoff arithmetic |
| `Store` | the transactions of the worker's store, as functions of the table and as a class |
| `Trigger` | the depth-first search behind a manual trigger, as functions and as a class |
| `Delayed` | the delayed set and its promotion script |
| `Protocol` | the whole system as steps: one per transaction, Redis command, crash, delivery, reclaim, cancel |
| `Runner` | the worker's program for one task as imperative code, each path of which is a path of `Protocol` |
| `Lifecycle`, `Claims`, `NoLoss`, `Recovery`, `DependencySafety`, `SingleActive`, `Cancellation`, `Acks`, `WithoutReclaims`, `Cascade`, `Timing` | theorems about all behaviours of `Protocol` |
| `Stranded`, `Promotion`, `Rounds`, `Outcome` | exactly which active runs can still finish without a user, by recursion on the dependency graph |
| `Backoff`, `Grounded` | exactly which jobs can have a run, and which have every backoff honoured |
| `Boundaries`, `NotWaiting` | behaviours that reach the bounds, or leave the hypotheses of those theorems |
| `Cron`, `Scheduler` | fire times, `due_tick`, polling, overlapping leaders |
| `Leader` | leader election over session locks |
| `Crud` | the dependency graph under create, update and delete |
| `WorkerLoop` | one worker's read loop, its semaphore and its cancel map |

A behaviour is a finite sequence of worlds, each obtained from the one before by an enabled step.
A world holds the run table, the stream with its pending-entry list, the delayed set, the ids that
were committed but not yet published, every worker task with its program counter, and the crashed
workers. `process_run` and `handle` are cut at every await.

## Assumptions

- Transactions are serial. `create_dependency_run` reads and then writes without a status guard
  (`backend/worker/store.py:158-164`), so it relies on this.
- A database call or a Redis command does not raise, except where a module says otherwise
  (`Leader` lets connect, execute and close fail). A Redis command whose await is canceled took
  effect before or not at all. A database call whose await is canceled goes on in its thread;
  where that matters it is the task state `LateRetry` or `LateFanOut`.
- The job table and the dependency edges are fixed while the protocol runs; `Crud` treats their
  changes separately. No job is deleted while it has runs in flight.
- A read of the stream may return any unread entry; order on the stream is not used.
- "Without a user" allows schedulers and workers every step of theirs, including ticks, orphan scans
  and reclaims; it excludes crashes, triggers, cancels and API retries.
- An execution ends with any of succeeded, failed and timed out.
- croniter with its time zone is an arbitrary function that gives the least fire time strictly
  after an instant. Instants are integers (microseconds) in `Cron` and `Scheduler`, and reals in
  `Protocol`.
- The column `origin` of the model refines `trigger_type`: it tells the code paths that write the
  same trigger type apart and remembers which run a retry came from. No modelled branch reads it,
  except that a scheduled run's tick stands for `scheduled_for`.

## Where the code and its documentation differ

- "No run is lost" (`backend/worker/main.py:8-9`) holds for QUEUED runs always, and for RUNNING runs
  when reclaims take only entries of crashed workers (`NoLoss.NoRunIsLost`,
  `Recovery.EveryDispatchedRunCanFinish`). XAUTOCLAIM goes by idle time, so a slow holder can be
  overtaken; `Recovery.LostRunReachable` gives a run that then stays RUNNING for ever. It does not
  hold for PENDING runs: a worker that crashes between `finish_run` and its fan-out strands the
  dependents, because the reclaimed delivery finds a finished run and is acked
  (`Outcome.StrandedRunReachable`). `Outcome.ActiveFinishesIff` says, for every reachable world and
  every active run, exactly when it can still finish without a user.
- "No double execution" (`backend/worker/main.py:10-11`) holds without reclaims; with n reclaims
  n + 1 workers can execute one run at the same time (`Boundaries.ClaimBoundIsReached`), and no
  more (`Claims.ClaimAccounting`). Reclaiming from crashed workers only is not enough
  (`Boundaries.SafeReclaimsExecuteTwice`); then it takes a second stream entry of the run
  (`Boundaries.TwoExecutionsTwoEntries`).
- "Ack only after reaching a terminal state" (`backend/worker/main.py:101`) is not so for a delivery
  whose claim is refused because the run is RUNNING (`Acks.EarlyAckReachable`), and is so for every
  other one (`Acks.EarlyAckIff`).
- "The downstream job runs only after dependencies have succeeded" (`README.md:50`) is so for
  triggered and fanned-out runs and their automatic retries
  (`DependencySafety.ClaimedAfterDependencies`), and for no job with dependencies is it so for
  scheduled runs (`NotWaiting.ScheduledRunDoesNotWait`) or for retries made through the API
  (`NotWaiting.ApiRetryDoesNotWait`).
- The dependencies are called a DAG (`README.md:15`), but an update can close a cycle
  (`Crud.UpdateCanCloseCycle`); `Crud.UpdateAcyclicIff` says exactly when it does.
- A canceled run is not always without effect: a cancel before the worker's check is
  (`Cancellation.CancelBeforeCheckIsClean`), but one that interrupts the task inside the transaction
  of a retry or a fan-out does not stop it (`Cancellation.CanceledRunIsRetried`,
  `Cancellation.CanceledRunFansOut`).
- The backoff of a retry is not waited for beyond the orphan threshold, because the orphan scan
  ignores the delayed set; `Grounded.BackoffHonouredIff` says exactly for which jobs it is.

## Model

| member | source | states |
|---|---|---|
| `Runs.Oldest` | backend/worker/store.py:183-189 | The row found is the first by (created_at, id) among the job's rows with an allowed status; None only if there is no such row. |
| `Runs.ActiveRun` | backend/api/routers/jobs.py:243-252 | Finds an active run of the job if and only if one exists, and then the oldest. |
| `Runs.Deps` | backend/api/routers/jobs.py:235-240 | Lists exactly the dependencies stored for the job. |
| `Runs.Distinct` | backend/api/crud.py:36-39 | `dict.fromkeys`: the same elements, each once. |
| `Runs.DistinctKeepsOrder` | backend/worker/store.py:141-141 | The elements come in the order of their first occurrences. |
| `RetryPolicy.BackoffSeconds` | backend/worker/executors/retry.py:18-23 | The delay lies between 0 and the cap for every attempt and base. |
| `RetryPolicy.BackoffDoubles` | backend/worker/executors/retry.py:18-23 | From one attempt to the next the delay doubles until the cap; the first delay is the base, capped. |
| `RetryPolicy.BackoffMonotone` | backend/worker/executors/retry.py:18-23 | The delay never decreases with the attempt. |
| `RetryPolicy.TotalBackoffBounded` | backend/worker/executors/retry.py:13-23 | n failed attempts wait at most base * (2^n - 1) and at most n caps in all. |
| `RetryPolicy.TotalBackoffExact` | backend/worker/executors/retry.py:18-23 | With no delay capped the first bound is met exactly. |
| `Store.RunStore.Claim` | backend/worker/store.py:27-61 | Claims exactly the PENDING, QUEUED and, if allowed, RUNNING runs; the run is then RUNNING and no other row changes. |
| `Store.RunStore.Cancel` | backend/worker/store.py:75-82 | Cancels exactly the active runs and changes no other row. |
| `Store.RunStore.Finish` | backend/worker/store.py:92-111 | Writes the result unless the run is CANCELED, which stays. |
| `Store.RunStore.CreateRetry` | backend/worker/store.py:114-124 | Appends one QUEUED row of the parent's job with the next attempt number. |
| `Store.DependentsReady` | backend/worker/store.py:127-152 | Contains exactly the dependents that pass the loop's tests. |
| `Store.ReadyExact` | backend/worker/store.py:127-204 | A dependent is listed exactly if it has the edge, exists, is enabled or has a PENDING run, has no QUEUED or RUNNING run, and each of its dependencies has a SUCCEEDED run. |
| `Store.ReadyOnce` | backend/worker/store.py:141-151 | The list of ready dependents names no job twice. |
| `Store.RunStore.ReadyDependents` | backend/worker/store.py:127-152 | The loop computes that list. |
| `Store.CreateDependencyRun` | backend/worker/store.py:155-172 | The returned run is QUEUED and the only dispatched run of its job; every other row is as before; with None nothing changed. |
| `Store.DependencyRunExact` | backend/worker/store.py:155-189 | It returns None exactly if a run is dispatched; otherwise it promotes the oldest PENDING run, or inserts a first attempt exactly if there is none. |
| `Store.RunStore.CreateDependency` | backend/worker/store.py:155-172 | The code does that to the table. |
| `Store.TransactionsGrow` | backend/worker/store.py:27-172 | Claim, cancel, finish and fan-out keep every row and its identity, never lower a status rank, and leave CANCELED alone. |
| `Trigger.PrepareCorrect` | backend/api/routers/jobs.py:203-232 | For every stack: a raised path continues the stack along edges through inactive jobs and meets itself; a success leaves all dependencies active, inserts only rows of the inactive closure, in post-order, and answers with a new row or with the job's oldest active run. |
| `Trigger.CycleDetectionExact` | backend/api/routers/jobs.py:203-232 | The cycle error is raised if and only if a walk from the triggered job through jobs without an active run meets itself. |
| `Trigger.TriggerPlanCorrect` | backend/api/routers/jobs.py:183-232 | A success changes no existing row, leaves the whole inactive closure active, gives each job at most one new row and only after its dependencies have one; exactly the dependency-free new rows are QUEUED and published, the others PENDING; an answered run that existed before is the oldest active one. |
| `Trigger.IdleTriggerPublishes` | backend/api/routers/jobs.py:194-232 | If nothing was active, a successful trigger publishes something. |
| `Trigger.TriggerRequest.PrepareTriggerRun` | backend/api/routers/jobs.py:203-232 | The recursive code terminates and does what the search specifies, or reports the cycle; a run it reuses is the job's oldest active one. |
| `Trigger.TriggerRequest.TriggerJob` | backend/api/routers/jobs.py:194-200 | On a cycle neither the table nor the stream changes; otherwise the plan is committed and its runs are published in order. A job with dependencies that is active already answers with its oldest active run. |
| `Delayed.RedisQueue.ScheduleDelayed` | backend/common/redis_queue.py:101-105 | Registers the run, or moves the ready time of one that is waiting. |
| `Delayed.RedisQueue.PromoteDueDelayed` | backend/common/redis_queue.py:110-125 | Moves exactly the due members to the stream in reply order, returns how many, and leaves only members due later than now. |
| `Delayed.Conservation` | backend/common/redis_queue.py:101-125 | In every history of registrations and promotions with any clocks, registrations of a run equal its promotions, plus those overwritten while waiting, plus one if it still waits. |
| `Delayed.PromotedAtMostOnce` | backend/common/redis_queue.py:108-125 | A run registered once is promoted at most once, and exactly once when it no longer waits. |
| `Protocol.TriggerExtends` | backend/api/routers/jobs.py:203-232 | What a trigger's transaction adds: first attempts, QUEUED exactly without dependencies, only QUEUED ones to publish. |
| `Protocol.StepGrows` | backend/worker/runner.py:47-124 | No step of any process removes a row, changes its identity, lowers its status rank or touches CANCELED. |
| `Runner.TaskRunner.Handle` | backend/worker/main.py:84-103 | Left alone, the task brings a claimed run to the executor's result or leaves everything to others, deletes its entry, and every state on the way is reached by steps of the protocol for this task. |
| `Runner.TaskRunner.ProcessRun` | backend/worker/runner.py:47-85 | A claimed run ends with the executor's result; an unclaimable one changes nothing. |
| `Runner.TaskRunner.OnSuccess` | backend/worker/runner.py:88-105 | Unless canceled the run is finished before the fan-out; the calls follow the protocol's order. |
| `Runner.TaskRunner.OnFailure` | backend/worker/runner.py:108-124 | Exactly if the run is not canceled and its attempt is at most the job's max_retries, one QUEUED row with the next attempt is inserted and registered for the clock reading plus the backoff of the job's retry_backoff_sec; the run then has its result. |
| `Lifecycle.StatusMonotone` | backend/worker/store.py:37-111 | Between any two moments of any behaviour the rank pending < queued < running < terminal never falls and CANCELED is absorbing. |
| `Lifecycle.NothingInFlightIsPending` | backend/worker/runner.py:99-103 | In every reachable world no stream entry, delayed member, unpublished id or task names a PENDING run. |
| `Lifecycle.InsertionsExact` | backend/api/routers/jobs.py:203-232 | Every row any step inserts: which code path it comes from decides its job, status, attempt and creation time. |
| `Claims.ClaimAccounting` | backend/worker/store.py:37-45 | In every behaviour a run leaves PENDING/QUEUED by a claim at most once, and is claimed at most 1 + (its reclaimed deliveries) times. |
| `Claims.AtMostOneExecution` | backend/worker/main.py:10-11 | Without reclaims of its entries a run is executed at most once, whatever duplicates and re-enqueues there are. |
| `Boundaries.ClaimBoundIsReached` | backend/worker/main.py:176-198 | For every n some behaviour has n reclaims and n + 1 claims of one run and ends with n + 1 live workers executing it. |
| `Boundaries.TerminalChangesIff` | backend/worker/store.py:92-111 | A step changes a terminal status if and only if a task finishes that run with another result and the status is not CANCELED. |
| `Boundaries.TerminalOverwritten` | backend/worker/store.py:92-111 | Some behaviour with one reclaim turns a SUCCEEDED run into a FAILED one. |
| `Boundaries.SafeReclaimsExecuteTwice` | backend/scheduler/main.py:125-126 | With reclaims from crashed workers only, two live workers can execute one run: an orphan re-enqueue made a second entry. |
| `Boundaries.TwoExecutionsTwoEntries` | backend/worker/main.py:84-103 | With reclaims from crashed workers only, two live workers past the claim of one run always hold two different entries of it. |
| `NotWaiting.ScheduledRunDoesNotWait` | backend/scheduler/main.py:58-86 | For every enabled scheduled job and each of its dependencies some behaviour claims a scheduled run though that dependency never had a success. |
| `NotWaiting.TicksAlways` | backend/scheduler/main.py:58-86 | In every behaviour only enabled scheduled jobs have scheduled runs, and never two for one tick. |
| `NotWaiting.RetriedRunDoesNotWait` | backend/api/routers/runs.py:68-88 | Every behaviour that ends with a terminal run can go on to claim an API retry of it, whichever dependencies have had no success. |
| `NotWaiting.ApiRetryDoesNotWait` | backend/api/routers/runs.py:68-88 | For every job that is scheduled, or whose trigger is accepted on an empty table, and each of its dependencies, some behaviour claims an API retry though that dependency never had a success. |
| `Acks.EarlyAckIff` | backend/worker/main.py:97-103 | In every behaviour a task turns to acking with its run not terminal if and only if its claim is refused because the run is RUNNING and the delivery is no reclaim. |
| `Acks.AckedTerminalOrRefused` | backend/worker/main.py:101-103 | Whenever a task acks or deletes, its run is terminal or its own claim was refused earlier for that reason. |
| `Acks.EarlyAckReachable` | backend/worker/runner.py:53-55 | Some behaviour acks an entry while its run is RUNNING. |
| `NoLoss.NoRunIsLost` | backend/worker/main.py:84-103 | With crashes anywhere and reclaims from crashed workers only, every RUNNING run always has a pending entry whose holder is dead, is working on it, or is about to claim it. |
| `Recovery.EveryDispatchedRunCanFinish` | backend/worker/main.py:8-9 | In the same behaviours every QUEUED or RUNNING run has a continuation, by schedulers and workers alone, to a terminal status. |
| `Recovery.QueuedFinishes` | backend/scheduler/main.py:95-101 | A QUEUED run can always finish, even if every message about it is gone: the orphan scan finds it. |
| `Recovery.LostForever` | backend/worker/store.py:37-45 | A RUNNING run that nothing refers to stays RUNNING in every continuation in which no user cancels it. |
| `Recovery.CanFinishIffRecoverable` | backend/worker/main.py:84-103 | A RUNNING run can finish without a user if and only if an unpublished id, a delayed member, an unread or pending entry, or a live task still refers to it. |
| `Recovery.LostRunReachable` | backend/worker/runner.py:53-55 | A reclaim from a slow but live worker can leave a RUNNING run that can never finish. |
| `Stranded.StrandedForever` | backend/worker/store.py:127-172 | A PENDING run that no fan-out can reach any more stays PENDING through every continuation by schedulers and workers. |
| `Rounds.PromotionReachable` | backend/worker/runner.py:88-105 | A PENDING run that a fan-out can still reach is promoted by some continuation, through as many levels of dependencies as it takes. |
| `Rounds.PendingFinishesIff` | backend/worker/store.py:127-172 | A PENDING run can finish without a user if and only if its job has no lost RUNNING run and a live fan-out names the job, or all its dependencies have succeeded or still can and one of them can still fan out. |
| `Outcome.SinglePendingAlways` | backend/api/routers/jobs.py:229-232 | In every reachable world a job has at most one PENDING run. |
| `Outcome.ActiveFinishesIff` | backend/worker/main.py:8-9 | In every reachable world: a QUEUED run can always finish without a user, a RUNNING one if and only if something refers to it, a PENDING one if and only if a fan-out can still reach it. |
| `Outcome.StrandedRunReachable` | backend/worker/runner.py:93-101 | Without any reclaim, a crash between `finish_run` and the fan-out leaves the dependent PENDING for good. |
| `DependencySafety.DependenciesMetAlways` | backend/worker/store.py:127-204 | In every reachable world each triggered or fanned-out run that is neither PENDING nor CANCELED, each automatic retry of one, and each pending fan-out belongs to a job all of whose dependencies have succeeded at some time. |
| `DependencySafety.ClaimedAfterDependencies` | backend/worker/runner.py:99-103 | Such a run is claimed only after each dependency of its job has had a SUCCEEDED run. |
| `SingleActive.SingleActiveRun` | backend/worker/store.py:155-180 | A job with dependencies, unscheduled, without retries of either kind, has at most one active run in every interleaving. |
| `Cancellation.CancelBeforeCheckIsClean` | backend/worker/runner.py:88-112 | After a cancel that commits before the task's cancel check, no later step of that task writes a row, an entry or a delayed member. |
| `Cancellation.CanceledRunIsRetried` | backend/worker/runner.py:113-117 | A cancel that interrupts a task inside `create_retry_run` does not stop the QUEUED retry of the canceled run; only the orphan scan finds it. |
| `Cancellation.CanceledRunFansOut` | backend/worker/runner.py:99-103 | A cancel that interrupts a task inside `create_dependency_run` does not stop the dependent's run, and it is not published. |
| `WithoutReclaims.TerminalIsFinal` | backend/worker/store.py:92-111 | Without reclaims a terminal status never changes. |
| `WithoutReclaims.OwnedAlways` | backend/worker/main.py:84-103 | Without reclaims at most one task works on a run, and no run has two automatic retries. |
| `WithoutReclaims.CountsAlways` | backend/worker/runner.py:113-117 | In every behaviour attempts are numbered along retries, and a retried run's attempt was at most its job's max_retries column. |
| `WithoutReclaims.RetryChains` | backend/worker/runner.py:113-124 | Without reclaims and API retries each first attempt starts one linear chain with attempts 1..k, k <= max_retries + 1 of the job's row, whose delays add up to at most retry_backoff_sec * (2^(k-1) - 1) and (k - 1) * 3600 seconds. |
| `Cascade.CascadesEnd` | backend/worker/runner.py:88-124 | On an acyclic graph, with no further triggers, ticks, API retries or reclaims, runs created plus remaining potential never exceed the potential at the start, however long the system goes on. |
| `Timing.EarliestDispatch` | backend/scheduler/main.py:95-101 | Under one monotone clock no automatic retry has a stream entry before its creation plus the lesser of its delay and the orphan threshold. |
| `Backoff.AttemptReachable` | backend/worker/runner.py:113-118 | From a queued attempt of a job every later one up to its max_retries + 1 is reached by some timed behaviour. |
| `Backoff.EarlyIff` | backend/scheduler/main.py:95-101 | Every retry of a job waits its whole backoff if and only if no retryable run of it is ever queued or the backoff of its max_retries-th attempt is at most 60 seconds. |
| `Grounded.OnlyGroundedRun` | backend/api/routers/jobs.py:203-232 | In every behaviour only jobs whose dependencies lead down to scheduled jobs and jobs without dependencies have runs. |
| `Grounded.GroundedIsQueued` | backend/worker/runner.py:88-105 | Every such job has a queued first attempt in some timed behaviour. |
| `Grounded.BackoffHonouredIff` | backend/worker/runner.py:115-118 | For a job, every retry waits its whole backoff in every timed behaviour if and only if its max_retries is 0, it can have no run at all, or its longest backoff is at most 60 seconds. |
| `Cron.DueTick` | backend/scheduler/cron.py:54-74 | The loop terminates with the greatest fire time in (base, now], None exactly if there is none; a cron expression fires at its instants, an interval of n seconds at base plus every multiple of n seconds. |
| `Cron.ParseIntExact` | backend/scheduler/cron.py:44-46 | `isdigit` and `int` read exactly the decimal notations, leading zeros included, each as the number it denotes. |
| `Cron.NextIsLeastFire` | backend/scheduler/cron.py:25-41 | The next run time is a fire time and none comes before it. |
| `Cron.DueIsLatest` | backend/scheduler/cron.py:54-74 | The result is the greatest point of the orbit of next run times in (base, now]; None exactly if there is none. |
| `Cron.DueIsLatestFire` | backend/scheduler/cron.py:54-74 | The same of the specification, for every schedule, malformed expressions included. |
| `Cron.IntervalLatest` | backend/scheduler/cron.py:43-49 | For the decimal notation of n and any clock it is base + s * floor((now - base) / s) with s = n seconds in microseconds, None exactly if that quotient is not positive. |
| `Cron.CronLatest` | backend/scheduler/cron.py:35-41 | For cron it is the greatest instant in (base, now] at which the expression fires. |
| `Scheduler.SchedulerSession.ScheduleDueJobs` | backend/scheduler/main.py:55-92 | The loop serves exactly the enabled cron and interval jobs with a fire time in (last or else created_at, now]: each gets its latest one as anchor and a run for it, inserted unless there is one; the returned ids are exactly the inserted rows. |
| `Scheduler.PollInserts` | backend/scheduler/main.py:58-92 | A poll keeps every row of every other job and every run; each inserted row is a QUEUED first attempt of a due job's latest tick; no tick gets two runs. |
| `Scheduler.PollsCollapse` | backend/scheduler/main.py:69-84 | Polls at any instants in any order leave the anchor at the latest fire time up to their maximum. |
| `Scheduler.TicksIncrease` | backend/scheduler/main.py:69-84 | The ticks they create are strictly increasing. |
| `Scheduler.OverlapSafe` | backend/scheduler/main.py:74-90 | However reads and commits of overlapping leaders interleave, no tick gets two runs and every tick and anchor lies on the orbit of the creation time. |
| `Scheduler.StaleCommitRegresses` | backend/scheduler/main.py:74-90 | A commit of a leader that read earlier takes the anchor back to its own tick, though both ticks have a run. |
| `Scheduler.NextPollRestores` | backend/scheduler/main.py:69-90 | After any such history the next undisturbed poll puts the anchor at the latest due tick (or leaves it ahead of a late clock), and if any tick is due the anchor's tick has a run. |
| `Leader.AlwaysSafe` | backend/scheduler/leader.py:26-78 | For any number of replicas and any history of calls, failures and dying sessions, a leader whose session lives holds the lock, and no two replicas share a session. |
| `Leader.SingleLeader` | backend/scheduler/leader.py:26-49 | At most one replica is leader with a live session. |
| `Leader.AcquireTellsTheTruth` | backend/scheduler/leader.py:26-59 | After any history `acquire` returns True only if the caller's own live session holds the lock; the flag equals the answer; an old session is kept only if it answers; no other session or lock is touched. |
| `Leader.LeaderStays` | backend/scheduler/leader.py:28-29 | After any history a leader whose session lives and answers gets True, and nothing changes. |
| `Leader.AcquireIff` | backend/scheduler/leader.py:26-49 | After any history a call without failures answers True if and only if the lock was free or held by the caller's own session. |
| `Leader.NoSessionLeaks` | backend/scheduler/leader.py:46-68 | While closing does not fail, every live session belongs to some replica. |
| `Leader.ReleaseIsPolite` | backend/scheduler/leader.py:70-78 | `release` steps down and never drops another replica's lock; the own lock is freed unless unlocking and closing both fail, and the session ends unless closing fails. |
| `Leader.Failover` | tests/unit/test_leader.py:28-93 | Once the lock is free the next `acquire` without failures wins it. |
| `Leader.LeaderElection.DoAcquire` | backend/scheduler/leader.py:26-49 | The code changes server and fields as specified, on every combination of failures. |
| `Leader.LeaderElection.DoRelease` | backend/scheduler/leader.py:70-78 | So does `release`. |
| `Crud.GraphAlwaysOk` | backend/api/crud.py:21-39 | In every history edges join existing jobs of one owner, with no self-edge and no duplicate. |
| `Crud.RequestsExact` | backend/api/crud.py:65-151 | After any history: exactly which creates, updates and deletes are accepted, with the edges then exactly the requested ones beside the untouched ones; every other request, a stranger's among them, changes nothing. |
| `Crud.NamesUnique` | backend/api/crud.py:66-70 | In every history no owner has two jobs of one name. |
| `Crud.TriggerStaysWithOwner` | backend/api/routers/jobs.py:183-232 | After any history a trigger's whole closure creates runs only for jobs of the triggered job's owner. |
| `Crud.NeverRewiredIsAcyclic` | backend/api/crud.py:65-93 | Histories that never update `depends_on` keep the graph acyclic: no trigger reports a cycle, and a height bounds every cascade. |
| `Crud.UpdateAcyclicIff` | backend/api/crud.py:112-146 | Setting a job's dependencies in an acyclic graph keeps it acyclic if and only if the job is not reachable from any of them. |
| `Crud.CycleFreeIffHeight` | backend/api/crud.py:21-39 | A graph has no closed path if and only if a height falls along its edges, which is what `Cascade.CascadesEnd` needs. |
| `Crud.CycleFreeTriggers` | backend/api/routers/jobs.py:203-216 | On an acyclic graph no trigger reports a cycle, whatever runs exist. |
| `Crud.UpdateCanCloseCycle` | backend/api/crud.py:21-33 | Two creations and one update make a two-job cycle; every trigger of either job is then refused, for every run table in which neither is active. |
| `Crud.JobCatalog.SetDependencies` | backend/api/crud.py:36-39 | Replaces the job's edges by one per distinct dependency. |
| `Crud.JobCatalog.CreateJob` | backend/api/crud.py:65-93 | Creates the job and its edges, or rejects a taken name or an invalid dependency and changes nothing. |
| `Crud.JobCatalog.UpdateJob` | backend/api/crud.py:112-146 | Succeeds exactly for the caller's own job, a valid payload and valid dependencies, and then rewrites its edges; a rejected update changes nothing. |
| `Crud.JobCatalog.DeleteJob` | backend/api/crud.py:149-151 | Removes exactly the caller's own job and every edge that touches it. |
| `WorkerLoop.BoundedConcurrency` | backend/worker/main.py:72-119 | At most C tasks hold a permit, at most C + min(C, B) are in flight, and the gauge equals the number of tasks in `process_run`, at every moment. |
| `WorkerLoop.BoundIsReached` | backend/worker/main.py:112-140 | For every C and B above 0 some behaviour has exactly C + min(C, B) tasks in flight. |
| `WorkerLoop.CancelNeverHitsAck` | backend/worker/main.py:97-103 | A cancel message marks only a task that is processing that very run; a task that acks and deletes is never touched. |
| `WorkerLoop.CancelReachesIff` | backend/worker/main.py:86-99 | A processing task can be found by the cancel listener if and only if no later delivery of the same run has entered since. |
| `WorkerLoop.CancelMarksMapped` | backend/worker/main.py:165-168 | In every behaviour a cancel message marks the task the map names, which is unfinished, and changes nothing else. |
| `WorkerLoop.CancelsIff` | backend/worker/main.py:86-99 | A cancel message for the run of a processing task cancels that task if and only if no later delivery of the run has entered since. |
| `WorkerLoop.InflightIff` | backend/worker/main.py:105-108 | In flight are exactly the spawned tasks whose done callback has not run. |
| `WorkerLoop.WorkerProcess.MeasureCapacity` | backend/worker/main.py:113-117 | Asks for at most the free capacity and the batch size; changes nothing else. |
| `WorkerLoop.WorkerProcess.SpawnAll` | backend/worker/main.py:133-140 | One waiting task in flight per message of the reply, in order. |
| `WorkerLoop.WorkerProcess.EnterProcessing` | backend/worker/main.py:85-89 | Takes a permit and the map entry of the run. |
| `WorkerLoop.WorkerProcess.LeaveProcessing` | backend/worker/main.py:97-100 | Gives up the map entry only if it is the task's own. |
| `WorkerLoop.WorkerProcess.OnCancelMessage` | backend/worker/main.py:165-168 | Requests the cancel of the mapped task if there is an unfinished one, and changes nothing else. |

## Left out

- Executors (shell, HTTP, asynchronous HTTP): subprocesses and network traffic; an execution is any outcome.
- Log rows and the columns worker_id, started_at, finished_at, exit_code, result and error: no modelled decision reads them.
- Authentication, pagination, listing, drafts, metrics other than the in-flight gauge, migrations and deployment: easy members or plumbing.
- Field validation of jobs (positive interval, bounds on max_retries): jobs are taken as valid.
- Digits other than 0-9 in interval expressions, which `isdigit` accepts, and intervals that overflow `int` or `timedelta`.
- croniter and time zone rules, including daylight saving: abstracted as a least-next-fire function.
- Job deletion while runs are in flight, and changes of max_retries or of edges during a run.
- Anomalies below whole transactions, except the overlap of stale leaders.
- Raised database and Redis errors in the worker: an unhandled error is acked like a success (`backend/worker/main.py:95-103`).
- Unreadable stream messages: they are acked and deleted without a task and use up part of a reply.
- Graceful shutdown of a worker: it only stops reading.
- Ownership checks and 404 and 409 answers of the trigger, retry and cancel endpoints: a rejected request is no step.
- Runner.TaskRunner.Handle: speaks of a task that nothing interrupts; interleavings, crashes and cancels are the subject of `Protocol`.
- Cascade.CascadesEnd: takes acyclicity as a height function on jobs, which `Crud.CycleFreeIffHeight` supplies for every graph without a closed path.
