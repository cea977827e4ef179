# Mini-Sidekiq: the job lifecycle, modelled and proved

This project models the job lifecycle protocol of Mini-Sidekiq, a distributed job queue in Go,
and proves properties of every run of it: the Redis broker as a concurrent state machine, the
Postgres broker, the worker pool, the weighted dispatcher, the scheduler and the shutdown
sequence of a server. `dafny verify dfyconfig.toml` checks everything.

## How the model is built

- **`Jobs`, `Backoff`**: the job record and the ways it is rewritten; the quartic backoff in
  int64 nanoseconds, wrap-around included.
- **`RedisStore`**: the Redis keys as one value, and every Lua script as one atomic function on
  it. Each script is proved to move one ID from one place to another and to touch no other.
- **`Lifecycle`**: the transition system. A state is the store, a clock and the broker calls in
  progress; an event is one script, one Redis command or one local decision of a worker. Calls
  that take several steps (`Dequeue`, `Acknowledge`, `RetryDeadJob`, `PromoteDueJobs`) can be
  interleaved with any other call between any two steps, and any call but a promotion pass can be
  dropped at any point: a crash, a cancelled context or an error. `Legal` are the runs, `History`
  is what a run's events alone say about each job.
- **`Invariant`**: the inductive invariant, that the store agrees with the history.
- **`Conservation`, `Flows`, `Effort`, `SoloScheduler`, `Punctual`, `Pacing`, `EarlyRun`, `Order`,
  `Overtaken`, `Failures`**: what follows for every run, and the runs that show where a promise fails.
- **`Calls`, `PostgresCalls`**: each broker call made without interruption is a run of the protocol,
  with its effect spelled out key by key and column by column.
- **`JobTable`, `RedisRefinement`, `PostgresTable`, `PostgresLifecycle`, `Agreement`**: one
  abstract job table; both brokers implement it and agree with each other.
- **`Promotion`, `Deletion`, `Statistics`, `StatsMeaning`, `Idempotence`**: promotion run alone,
  delete recovery, queue statistics, repeated enqueues.
- **`RedisBroker`, `PostgresBroker`, `WorkerPool`, `Middleware`, `Dispatcher`**: the methods of
  the source as classes and loops, proved against the functions the protocol is built from.
- **`Server`, `ServerSafety`, `Shutdown`, `Drain`, `BoundedWait`**: one server, goroutine by goroutine,
  sharing the store with any number of other servers and clients.

## What the model takes for granted

- `Enqueue` is called with new, non-empty IDs and jobs built by `NewJob` and `Client.Enqueue`
  (`Newborn`). `Idempotence` shows what happens otherwise.
- Handlers do not change the job record they are given.
- Time is whole Unix seconds on a clock that never goes back; a client's reading is never ahead of
  it. Redis stores `.Unix()` values; the Postgres model uses the same resolution.
- A script, a Redis command and an SQL statement are atomic. Job records are stored as they are;
  JSON encoding is trusted.
- Randomness (`rand.Intn(30)`), the clock, the outcome of handlers, the tie-breaking order of
  `ZRANGEBYSCORE`, the order and repetitions of `SCAN`, and the rows other Postgres transactions
  hold locked are parameters or free choices, so the results hold for all of them.

## Where the code does not do what its documentation says

- README.md:89 calls retrying a failed `Enqueue` safe. In Redis, at any later point of any run, it is
  safe exactly while the job is still in the scheduled set and the client takes it to be not yet due
  (`Idempotence.RepeatHarmlessIff`), which a client that reads the system clock can tell: exactly while
  the job is not due (`Idempotence.RepeatedEnqueue`). Otherwise the store gains one more copy of the
  ID, and a due job is delivered once more than it should be (`Idempotence.DueTwiceRunsTwice`).
- Two schedulers can run a retry before its time, because `promoteJobScript` claims by ID and does
  not look at the score again (`EarlyRun.TwoSchedulersRunEarly`). A promotion keeps queued jobs due
  exactly when the claimed score has come (`SoloScheduler.PromoteTimelyIff`), which one scheduler
  at a time guarantees (`SoloScheduler.NeverEarly`). With any number of schedulers only retries are
  affected, never a first attempt (`Punctual.OnlyRetriesEarly`).
- For the same reason jobs that wait in one set for one queue are not always dequeued in score order:
  a scheduler with an old listing can claim a retry due at second 47 before one due at second 32
  (`Overtaken.RetriesOvertaken`). From a given state on, the later of two jobs is dequeued only after
  the earlier one if and only if no pass in progress has listed the later one without the earlier one
  before it (`Order.ScoreOrderIff`); so it is whenever no pass is in progress
  (`Order.ScoreOrderBetweenPasses`).
- pkg/client/server.go:118-122 says that no new jobs are fetched after cancellation. One can be: a
  four-step run of a server shows it (`Drain.FetchedAfterCancel`). The dispatcher makes one more poll
  if the cancellation finds it past the check at the top of its loop, and none otherwise
  (`Drain.OneLastPoll`, `Drain.OneLastFetch`), and that poll fetches a job exactly if the queue whose
  turn it is has one (`Drain.CanFetchIff`).
- From attempt 310 on the backoff overflows int64 nanoseconds whatever the jitter
  (`Backoff.OverflowFrom310`) and can become negative (`Backoff.OverflowAt310`); it is the formula for
  every jitter exactly up to attempt 309 (`Backoff.ExactUpTo309`).
- The ranges in the comment at internal/retry/retry.go:12 do not match the formula; the model
  follows the code.

## Model

| member | source | states |
|---|---|---|
| Jobs.BuildJob | pkg/client/client.go:50-77 | a job built by the client is newborn and carries its arguments: ID, type and payload as given, the named queue or "default", due after the delay or now, three attempts unless given |
| Jobs.FixedMeans | job.go:19-33 | what no operation rewrites: ID, queue, type, payload, priority, creation, limits and key |
| Backoff.Wrap64 | internal/retry/retry.go:18 | int64 wrap-around: in range, congruent, and the identity where the product fits |
| Backoff.DelayBounds | internal/retry/retry.go:14-19 | for attempts 1 to 309 and every jitter the delay is between n^4+15 and n^4+15+29(n+1) whole seconds and fits int64 nanoseconds |
| Backoff.DelayFormula | internal/retry/retry.go:14-19 | up to attempt 309 the delay is n^4 + 15 + j(n+1) whole seconds, for every jitter j |
| Backoff.ExactIff | internal/retry/retry.go:14-19 | the duration is the formula if and only if the seconds fit a Duration |
| Backoff.OverflowFrom310 | internal/retry/retry.go:14-19 | from attempt 310 on, for every jitter, the seconds do not fit a Duration and the delay is not the formula |
| Backoff.ExactUpTo309 | internal/retry/retry.go:14-19 | the delay is the formula for every jitter below 30 if and only if the attempt is at most 309 |
| Backoff.OverflowAt310 | internal/retry/retry.go:14-19 | attempt 310 without jitter gives a negative delay and a retry time in the past |
| Backoff.Separated | internal/retry/retry.go:14-19 | from the third attempt on the longest delay is shorter than the next attempt's shortest |
| Backoff.OverlapAtTwo | internal/retry/retry.go:14-19 | the bound of three is sharp |
| Backoff.RetryAtExact | internal/broker/redis.go:198-213 | a retry becomes due exactly the backoff after the second it was decided in |
| Backoff.WhenRetried | internal/broker/redis.go:198-213 | a retry becomes due n^4 + 15 + j(n+1) seconds after the second it was decided in |
| RedisStore.Put | internal/broker/redis.go:22-110 | writing a key changes that key only and never stores an empty collection |
| RedisStore.RemoveFirst | internal/broker/redis.go:56-59 | LREM with count 1 removes one occurrence of the ID and of nothing else |
| RedisStore.RemoveFirstAt | internal/broker/redis.go:56-59 | LREM takes the first occurrence out of its place and keeps the order of the rest |
| RedisStore.RemoveAll | internal/broker/redis.go:524-526 | LREM with count 0 removes every occurrence of the ID and nothing else |
| RedisStore.RemoveAllConcat | internal/broker/redis.go:524-526 | LREM acts on each part of a list by itself, so what stays keeps its order |
| RedisStore.EnqueueShifts | internal/broker/redis.go:31-43 | Enqueue adds one occurrence, on the queue if due and in the scheduled set otherwise |
| RedisStore.PopShifts | internal/broker/redis.go:22-29 | Dequeue's script moves one occurrence from the queue to the active set |
| RedisStore.ReleaseShifts | internal/broker/redis.go:186 | Acknowledge's ZREM takes the ID out of the active set |
| RedisStore.RequeueShifts | internal/broker/redis.go:66-75 | Requeue moves the ID from active to its queue's retry set |
| RedisStore.BuryShifts | internal/broker/redis.go:77-85 | MoveToDeadLetter moves the ID from active to its queue's dead list |
| RedisStore.ReviveShifts | internal/broker/redis.go:49-64 | a successful retry moves one occurrence from the dead list to the queue |
| RedisStore.PromoteShifts | internal/broker/redis.go:91-110 | a successful promotion moves the ID from its waiting set to the queue its record names |
| Lifecycle.Sources | internal/broker/redis.go:225-228 | a pass reads the scheduled set, then each queue's retry set in order |
| Invariant.MoveKeeps | internal/broker/redis.go:22-110 | any step that moves one job keeps the store in agreement with the history |
| Invariant.ResetOfStaleRead | internal/broker/redis.go:484-487 | what a retry resets is all that a stale read can have missed |
| Invariant.PromoteMoves | internal/broker/redis.go:91-110 | in reachable states a promotion that claims an ID also queues it |
| Invariant.StepKeeps | internal/broker/redis.go:119-277 | every event keeps the invariant: places, records, scores, statuses, call data and single ownership |
| Invariant.StepLawful | internal/broker/redis.go:119-277 | an event happens only to a job whose history allows it |
| Invariant.RunCoupled | internal/broker/redis.go:119-277 | in every state of every interleaved run the store agrees with the history |
| Conservation.HistoryMeans | internal/broker/redis.go:119-196 | the history knows exactly the enqueued jobs; gone are exactly the acknowledged ones |
| Conservation.ExactlyOnce | internal/broker/redis.go:22-110 | an enqueued, unacknowledged job is stored exactly once over all structures and has a record; any other ID nowhere |
| Conservation.NeverAgain | internal/broker/redis.go:185-196 | after the acknowledgement's ZREM no later event delivers, moves or settles the job |
| Conservation.RecordsExactly | internal/broker/redis.go:185-196 | the records are those of exactly the enqueued jobs whose acknowledgement has not got to its DEL |
| Conservation.ActiveDeadline | internal/broker/redis.go:146-168 | the score of an active job is the deadline its last delivery set |
| Conservation.PlacesAgree | internal/broker/redis.go:119-277 | status, place and queue agree; dead list membership is equivalent to a dead record; other records have attempts left |
| Conservation.SingleHolder | internal/worker/pool.go:91-125 | a job is in the hands of at most one call, is active and has a record |
| Conservation.HeldCopyIsCurrent | internal/broker/redis.go:170-182 | the job a worker holds equals the stored record |
| Conservation.RetryIsAtomic | internal/broker/redis.go:475-506 | read-then-script is one atomic retry at script time; it succeeds exactly on dead jobs and otherwise changes nothing |
| Flows.ClaimedOnce | internal/broker/redis.go:87-110 | insertions into waiting sets equal promotions plus one while waiting: each is claimed at most once |
| Flows.RevivedOnce | internal/broker/redis.go:49-64 | burials equal successful retries plus one while dead: concurrent retries succeed once |
| Flows.PassCounts | internal/broker/redis.go:222-253 | for any number of schedulers, returned and running counts sum to the jobs moved |
| Flows.QueueStep | internal/broker/redis.go:22-110 | one event pops a queue at its end, pushes at its head, or leaves it |
| Flows.Fifo | internal/broker/redis.go:22-43 | everything ever pushed on a queue is everything ever popped followed by the list from its pop end |
| Effort.IdentityKept | internal/broker/redis.go:198-277 | queue, type, payload and limits of a job never change |
| Effort.FuelStep | internal/worker/pool.go:156-172 | every move but a manual retry strictly lowers the measure; nothing else changes it |
| Effort.MovesCount | internal/broker/redis.go:66-110 | the number of moves is the number of events that take the job from one place to another |
| Effort.DeliveriesCount | internal/broker/redis.go:22-29 | the number of deliveries is the number of pops of the job |
| Effort.MovesBounded | internal/worker/pool.go:156-172 | at most 3M moves and M deliveries for each life of a job with MaxAttempts M |
| Effort.RunsPerDelivery | internal/worker/pool.go:106-146 | each run of a handler has its own delivery, runs whose outcome or acknowledgement never reached the store included |
| Effort.HandlerRunsCount | internal/worker/pool.go:106-146 | the number of handler runs is the number of events that end one |
| Effort.HandlerRunsBounded | internal/worker/pool.go:106-172 | the handler runs at most MaxAttempts times for each life, runs whose acknowledgement failed included |
| SoloScheduler.MembersStay | internal/broker/redis.go:91-110 | only a promotion of that ID takes a member out of a waiting set or changes its score |
| SoloScheduler.PromoteTimelyIff | internal/broker/redis.go:91-110 | a promotion keeps queued jobs due if and only if the claimed score has come |
| SoloScheduler.NeverEarly | internal/broker/redis.go:222-253 | with one pass at a time every queued or active job has reached its due time |
| Punctual.RunPunctual | internal/broker/redis.go:91-110 | with any number of schedulers, whatever is listed from the scheduled set or has left it has reached the due time in its record |
| Punctual.ScheduledNeverEarly | internal/broker/redis.go:91-110 | a promotion out of the scheduled set is never early, however many schedulers there are |
| Punctual.OnlyRetriesEarly | internal/broker/redis.go:222-253 | a queued or active job that is not due yet has failed before |
| Punctual.FirstWaitKept | internal/broker/redis.go:119-144 | while a job is in the scheduled set it is as it was enqueued; once it is not, its time has come |
| EarlyRun.TwoSchedulersRunEarly | internal/broker/redis.go:222-253 | a run with two schedulers delivers at second 16 a job told to wait until second 47 |
| Pacing.FailureServed | internal/worker/pool.go:156-172 | by the time a job fails again it has waited out all earlier backoffs |
| Pacing.RunPaced | internal/broker/redis.go:198-253 | with one scheduler every retry is due no earlier than first failure plus the sum of its backoffs |
| Pacing.BackoffsClosed | internal/retry/retry.go:14-19 | thirty times the sum of n^4 + 15 over n up to k is 6k^5 + 15k^4 + 10k^3 + 449k |
| Pacing.DeathIsPaced | internal/worker/pool.go:156-172 | a job that dies of M failures, M up to 310, takes at least the sum of n^4+15 over n below M seconds from its first failure to its burial on the dead list |
| Promotion.PromoteEachEffect | internal/broker/redis.go:240-249 | promoting listed members takes exactly them, queues each on its own queue in order, and counts them |
| Promotion.PromoteNothing | internal/broker/redis.go:91-110 | an ID claimed by another is left alone and one without a record is dropped; neither is counted |
| Promotion.PassEffect | internal/broker/redis.go:222-253 | a pass run alone takes exactly the due members of its sources, changes nothing else, and returns their number |
| Promotion.PassComplete | internal/broker/redis.go:222-253 | after it no due ID is left in a listed source, later ones keep their score, every due ID is on its record's queue |
| Promotion.ScoreOrder | internal/broker/redis.go:222-253 | after a whole pass the jobs of one source bound for one queue are on its list in score order, the lowest nearest to the pop end |
| Order.NoOvertaking | internal/broker/redis.go:22-110 | a job behind another, in a waiting set or on a queue list, is popped only after the other has been popped |
| Order.QueueOrder | internal/broker/redis.go:22-29 | whoever is nearer to the pop end of a queue is popped first, in every continuation of the run |
| Order.ScoreOrder | internal/broker/redis.go:222-253 | if no pass in progress has listed the later of two jobs waiting in one set for one queue without the earlier one before it, the later one is dequeued only after the earlier one, whatever is interleaved afterwards, with any number of schedulers and with passes cut short |
| Order.OutOfTurn | internal/broker/redis.go:91-110 | if a pass in progress has it so listed, some continuation dequeues the later one and not the earlier one |
| Order.ScoreOrderIff | internal/broker/redis.go:222-253 | two jobs waiting in one set for one queue are dequeued in score order in every continuation if and only if no pass in progress has listed the later one without the earlier one before it |
| Order.ScoreOrderBetweenPasses | internal/broker/redis.go:222-253 | jobs that wait in one set for one queue while no pass is in progress are dequeued in score order, whatever passes follow |
| Order.PassOrder | internal/broker/redis.go:222-253 | after an uninterrupted pass, what it took from one source for one queue is dequeued in score order in every continuation |
| Overtaken.RetriesOvertaken | internal/broker/redis.go:222-253 | a run with two schedulers after which a retry due at second 47 can be dequeued before one due at second 32 |
| JobTable.TableSafe | internal/worker/pool.go:106-172 | what the operations allowed on the abstract table guarantee: attempts in range, specs kept, done rows final, runs only from waiting and not before the due time, attempts one at a time |
| RedisRefinement.StepTable | internal/broker/redis.go:119-277 | each event is one operation of the abstract table; promotion changes nothing |
| RedisRefinement.RedisRefines | internal/broker/redis.go:119-277 | every run with one scheduler is a run of the abstract table, each operation allowed when it happens |
| RedisRefinement.RedisRefinesButForTime | internal/broker/redis.go:119-277 | with any number of schedulers every run follows the abstract table in all but one respect: the take of a retry may come before its due time |
| RedisRefinement.TableShowsStore | internal/broker/redis.go:119-277 | with any number of schedulers, the table's phases are readable off the store: running is active, buried is dead, waiting is queued or in a waiting set, whose score is the due time; the record carries the rest of the row |
| PostgresLifecycle.StepTable | internal/broker/postgres.go:70-165 | each SQL statement is one operation of the abstract table |
| PostgresLifecycle.RunGood | internal/broker/postgres.go:38-165 | live unique keys stay unique, held jobs are active rows with one holder, counters fit statuses |
| PostgresLifecycle.PostgresRefines | internal/broker/postgres.go:70-165 | every Postgres run is a run of the same abstract table, and the rows are the table |
| PostgresLifecycle.EnqueueInserts | internal/broker/postgres.go:70-94 | in every reachable table a new job is inserted exactly when its ID is unused and its key is free but for dead and completed rows; it then waits for its time |
| PostgresLifecycle.ClaimsMostUrgent | internal/broker/postgres.go:101-128 | no unlocked job that could have been taken from the queue has a lower priority number than the one claimed, or the same one and an earlier time |
| Failures.FailureRecorded | internal/worker/pool.go:106-172 | when a failed delivery is settled, the record holds its error, one attempt more, and dead or retry as the attempts say; a retry waits exactly its backoff |
| Failures.RejectionRecorded | internal/worker/pool.go:106-115 | a job without a handler is dead with the reason and no attempt used |
| Calls.EnqueueRuns | internal/broker/redis.go:119-144 | a new job can always be enqueued: its record is stored, and its ID is at the head of its queue if due and in the scheduled set with its time otherwise |
| Calls.AcknowledgeRuns | internal/broker/redis.go:185-196 | a held job can be acknowledged: the ID leaves the active set, the record goes, nothing else changes |
| Calls.RetryRuns | internal/broker/redis.go:198-220 | a failed job with attempts left waits in its retry set for exactly its backoff, with the error and the attempt in its record |
| Calls.LastFailureRuns | internal/broker/redis.go:255-277 | after its last attempt it is at the head of the dead list, with the error and the attempt in its record |
| Calls.RejectionRuns | internal/worker/pool.go:106-115 | a job without a handler goes to the dead list with the reason and no attempt used |
| Calls.RevivalRuns | internal/broker/redis.go:475-506 | a dead job can be retried: it is reset and at the head of its queue, and off the dead list |
| Calls.RefusalRuns | internal/broker/redis.go:475-506 | retrying a job that is not dead is refused and changes nothing |
| Calls.BreaksOff | internal/broker/redis.go:119-277 | any call can break off at any point without touching the store; a pass then returns what it has counted |
| Calls.ProcessRuns | internal/worker/pool.go:106-172 | for every outcome of the handler chain, what the store holds after the job is processed |
| PostgresCalls.AcknowledgeRuns | internal/broker/postgres.go:130-140 | a held job can be acknowledged and its row is kept as completed |
| PostgresCalls.RetryRuns | internal/broker/postgres.go:142-153 | a failed job with attempts left waits for its backoff, with the error and the attempt in its row |
| PostgresCalls.LastFailureRuns | internal/broker/postgres.go:155-165 | after its last attempt its row is dead, with the error and the attempt |
| PostgresCalls.RejectionRuns | internal/worker/pool.go:106-115 | a job without a handler has a dead row with the reason and no attempt used |
| PostgresCalls.ClaimRuns | internal/broker/postgres.go:101-128 | the most urgent ready unlocked row can be claimed: it is active and in the hands of the caller, otherwise as it was |
| PostgresCalls.BreaksOff | internal/broker/postgres.go:70-165 | any call can break off at any point without touching the rows |
| PostgresCalls.RevivalRuns | internal/broker/postgres.go:260-273 | a row is restored exactly when it is dead and its key is free but for dead and completed rows; it is then as if newly enqueued |
| Agreement.PassRuns | internal/broker/redis.go:222-253 | a pass with nothing interleaved is a run of the protocol with the same store and count |
| Agreement.ClaimableIsQueued | internal/broker/redis.go:222-253 | with any number of schedulers, a claimable job of the table is on its queue's list after a pass covering the queue |
| Agreement.RedisHasWork | internal/broker/redis.go:222-253 | after a pass covering a queue, its list is non-empty exactly when the table has a claimable job for it |
| Agreement.PostgresHasWork | internal/broker/postgres.go:101-128 | Dequeue finds a row exactly when the table has a claimable job for the queue |
| Agreement.BrokersAgree | internal/broker/postgres.go:228-237 | for the same table and clock, after a Redis pass both brokers have work for the queue or neither |
| Idempotence.RepeatHarmlessIff | internal/broker/redis.go:31-43 | at any later point of any run and for any reading of the clock, repeating an Enqueue changes nothing if and only if the job is still in the scheduled set and not due by that reading; otherwise the store gains exactly one copy of the ID |
| Idempotence.RepeatedEnqueue | internal/broker/redis.go:31-43 | with the system clock as the reading, it changes nothing if and only if the job is not due yet |
| Idempotence.DueTwiceRunsTwice | internal/broker/redis.go:22-43 | in every reachable store, repeating the Enqueue of a due job makes its queue deliver it twice if it is still queued and once again if it is not |
| Idempotence.InsertTwice | internal/broker/postgres.go:70-94 | repeating an Enqueue in Postgres at once never changes anything |
| Idempotence.RepeatedInsert | internal/broker/postgres.go:70-94 | nor does it at any later point of any run once the row was inserted |
| Deletion.CleanList | internal/broker/redis.go:524-526 | a list removal clears that ID from that key and counts nothing else |
| Deletion.DeleteRecovers | internal/broker/redis.go:514-534 | any prefix of the removals followed by a full run equals one full run |
| Deletion.DeleteRemovesOnly | internal/broker/redis.go:514-534 | in reachable states a full run takes the ID out of every collection; other records, all scores and the order of the lists are as they were |
| Deletion.DeleteIsComplete | internal/broker/redis.go:514-534 | in reachable states a full run leaves the ID nowhere, and every other ID where it was |
| Statistics.ScanEach | internal/broker/redis.go:361-372 | assigning per scanned key gives each key its size, whatever the order and repetitions |
| Statistics.Attribute | internal/broker/redis.go:430-453 | each queue's field is raised by the number of listed IDs whose record names it |
| Statistics.GetQueueStats | internal/broker/redis.go:358-414 | the result is the direct recount, with an entry for exactly the queues that hold a job |
| StatsMeaning.RecountMeans | internal/broker/redis.go:358-414 | in reachable states each number counts the jobs at that place and queue, they sum to all jobs of the queue, and the entry names its queue |
| StatsMeaning.TotalCountsEveryJob | internal/broker/redis.go:358-414 | the grand total is the number of enqueued, unacknowledged jobs |
| RedisBroker.DequeueTakesFirst | internal/broker/redis.go:146-183 | Dequeue takes the last ID of the first non-empty listed queue, makes it active and answers with its record; it is idle if all are empty |
| RedisBroker.DequeueDelivers | internal/broker/redis.go:146-183 | in every reachable store the answer is the record of that ID, which names the ID and the queue; the protocol's Pop and Read deliver the same job and leave the same store |
| RedisBroker.DequeueIdleIff | internal/broker/redis.go:146-183 | in every reachable store Dequeue answers "no job" if and only if every listed queue is empty |
| RedisBroker.Broker.constructor | internal/broker/redis.go:112-117 | a new store is empty |
| RedisBroker.Broker.Enqueue | internal/broker/redis.go:119-144 | the effect of the enqueue script function: one more occurrence of the ID, on its queue if due and in the scheduled set otherwise |
| RedisBroker.Broker.PopOne | internal/broker/redis.go:22-29 | the effect of the pop script function: one occurrence of the popped ID goes from the queue to the active set |
| RedisBroker.Broker.Dequeue | internal/broker/redis.go:146-183 | the loop takes the last ID of the first non-empty queue and answers with its record, or with "no job" and no change if all are empty |
| RedisBroker.Broker.Acknowledge | internal/broker/redis.go:185-196 | ZREM, then DEL: the ID leaves the active set and no other place, its record is gone and no other is touched |
| RedisBroker.Broker.Requeue | internal/broker/redis.go:198-220 | the effect of the requeue script function: the ID goes from active to its retry set |
| RedisBroker.Broker.MoveToDeadLetter | internal/broker/redis.go:255-277 | the effect of the bury script function with the status set to dead: the ID goes from active to its dead list |
| RedisBroker.Broker.RetryDeadJob | internal/broker/redis.go:475-506 | run alone it is the atomic retry: the ID goes from the dead list to the queue, or nothing changes; "not found" exactly without a record |
| RedisBroker.Broker.PromoteOne | internal/broker/redis.go:91-110 | the effect of the promote script function: a moved ID goes from its waiting set to the queue its record names |
| RedisBroker.Broker.PromoteBatch | internal/broker/redis.go:240-249 | the inner loop promotes each listed ID and counts the successes |
| RedisBroker.Broker.PromoteDueJobs | internal/broker/redis.go:222-253 | the nested loops are a complete pass over the sources with the count returned |
| RedisBroker.Broker.DeleteJob | internal/broker/redis.go:514-534 | all removals, or nothing without a record |
| RedisBroker.RangeByScore | internal/broker/redis.go:232-235 | the members with a score up to the limit, each once, in score order |
| PostgresBroker.Broker.Enqueue | internal/broker/postgres.go:70-94 | inserted if and only if the ID is unused and no row that is neither dead nor completed has the key; for a new job one Submit of the abstract table, or nothing |
| PostgresBroker.Broker.Select | internal/broker/postgres.go:106-114 | of the due unlocked rows of the queue one with the lowest priority number, and the earliest time among those; none only if there is none |
| PostgresBroker.Broker.Dequeue | internal/broker/postgres.go:101-128 | the first queue with a due unlocked row gives its most urgent one by priority number and then time, which is active from then on; otherwise nothing changes |
| PostgresBroker.Broker.Acknowledge | internal/broker/postgres.go:130-140 | the row is kept as completed: one Complete of the abstract table |
| PostgresBroker.Broker.Requeue | internal/broker/postgres.go:142-153 | status, attempts, error and due time are updated: one Postpone of the abstract table |
| PostgresBroker.Broker.MoveToDeadLetter | internal/broker/postgres.go:155-165 | status, attempts and error are updated: one Kill of the abstract table |
| PostgresBroker.Broker.RetryDeadJob | internal/broker/postgres.go:260-273 | a row is reset if and only if it is dead and its key is free but for dead and completed rows: one Restore of the abstract table, or nothing |
| Middleware.BuildChain | internal/middleware/middleware.go:26-32 | the loop from last to first is the right fold |
| Middleware.ChainSmall | internal/middleware/middleware.go:26-32 | no middleware leaves the handler as it is, and one wraps it once |
| Middleware.ChainConcat | internal/middleware/middleware.go:26-32 | chaining two lists is chaining the second, then the first around it |
| Middleware.Recovered | internal/middleware/middleware.go:53-64 | a panic becomes an error that carries its value, any other outcome is untouched |
| Middleware.RecoveryCatches | internal/middleware/middleware.go:53-64 | with recovery in the chain and transparent middlewares outside it, no panic gets out |
| WorkerPool.Pool.Use | internal/worker/pool.go:58-60 | added middlewares go inside the earlier ones |
| WorkerPool.Pool.Fail | internal/worker/pool.go:156-172 | one call: dead letter on the last attempt, requeue with the backoff otherwise, the record with the error and one attempt more |
| WorkerPool.Pool.Process | internal/worker/pool.go:106-138 | exactly one broker call for any handler and middlewares, panics included, which one, and the error it carries |
| WorkerPool.DefaultChain | internal/worker/pool.go:37-60 | the logging every pool starts with changes no outcome, and recovery added with Use catches what panics further in |
| WorkerPool.OutcomeDecides | internal/worker/pool.go:106-172 | acknowledged exactly on success, dead-lettered exactly on the last failed attempt; the record carries the error or the panic value, and its identity is kept |
| WorkerPool.ProcessIsFail | internal/worker/pool.go:156-172 | a worker's call is the step the protocol takes, with the same record and due time |
| Dispatcher.BuildPollSchedule | internal/dispatcher/dispatcher.go:33-41 | the nested loops list the configurations in order, each as a block as long as its weight, so each queue exactly as often as its weight |
| Dispatcher.EntryBelongs | internal/dispatcher/dispatcher.go:33-41 | each entry of the schedule belongs to the configuration whose running weight covers it |
| Dispatcher.WindowVisits | internal/dispatcher/dispatcher.go:79-88 | every window of schedule length visits each queue exactly its weight, from any index |
| Dispatcher.EnoughVisits | internal/dispatcher/dispatcher.go:79-88 | (p / w + 1) windows visit a queue of weight w more than p times |
| Server.NewServer | pkg/client/server.go:64-105 | the configured workers and schedule; the buffer has the given size, or twice the concurrency if none is given, and is empty only without workers |
| Server.RunIsRun | pkg/client/server.go:123-144 | what a server does to the shared store is a run of the protocol |
| Server.PollsCount | internal/dispatcher/dispatcher.go:79-97 | the number of polls in a stretch is the number of its actions that call Dequeue, failed ones included |
| ServerSafety.DeliveryUndisturbed | internal/worker/pool.go:91-125 | steps of other calls never disturb a delivery |
| ServerSafety.DeliveryAdvances | internal/worker/pool.go:106-172 | a delivery's own steps keep its job active until they settle it |
| ServerSafety.WorldStep | pkg/client/server.go:123-144 | every step of the server or of anybody else keeps deliveries, slots and the pass in order |
| Shutdown.Backpressure | internal/worker/pool.go:62-73 | at most Concurrency + BufferSize + 1 deliveries in hand; all deliveries ever taken and not settled, in hand or given up, are of active and pairwise different jobs |
| Shutdown.DefaultBackpressure | pkg/client/server.go:70-73 | with the default buffer the bound is three times the concurrency plus one |
| Shutdown.SubmitBlocksIff | internal/worker/pool.go:62-73 | Submit blocks exactly while the buffer is full, no worker waits on an empty one and the context is not cancelled |
| Shutdown.IdleWorkerTakes | internal/worker/pool.go:91-104 | an idle worker can take the head of the buffer whenever there is one, cancelled or not |
| Shutdown.FailuresPossible | internal/dispatcher/dispatcher.go:90-97 | every Dequeue and every pass may fail; a failed Dequeue uses up its turn, and after cancellation a failure ends its loop |
| Shutdown.RunsUntilCancelled | pkg/client/server.go:118-144 | before cancellation no worker and no scheduler stops, and the dispatcher only without queues |
| Shutdown.NothingLost | pkg/client/server.go:118-144 | every popped job is settled or still active; after Close an unsettled one is in the buffer or was given up |
| Shutdown.SettledByWorker | internal/worker/pool.go:140-172 | settled means a worker of the server recorded that delivery's outcome |
| Shutdown.SilentAfterClose | pkg/client/server.go:137-143 | after Close the server makes no broker call |
| Drain.OneLastPoll | internal/dispatcher/dispatcher.go:79-97 | after cancellation the dispatcher polls exactly once more if it was past the check at the top of its loop, and never otherwise |
| Drain.OneLastFetch | internal/dispatcher/dispatcher.go:79-97 | after cancellation at most one more job is fetched, and none if the dispatcher was not past the check |
| Drain.CanFetchIff | internal/dispatcher/dispatcher.go:79-97 | a server can fetch a job next if and only if its dispatcher is past the check and the queue whose turn it is has one |
| Drain.FetchedAfterCancel | pkg/client/server.go:118-122 | a run in which a job goes to the active set after the cancellation |
| Drain.BegunAfterCancel | internal/worker/pool.go:91-104 | after cancellation the workers begin at most what is in the buffer and one job more, so at most BufferSize + 1 |
| Drain.ShutdownNeverStuck | pkg/client/server.go:137-143 | between cancellation and Close the server always has a step of its own that needs no broker call to fail and leaves less to do |
| Drain.ShutdownCanFinish | pkg/client/server.go:123-144 | from every state after cancellation the server can reach Close by its own steps, no broker call failing |
| BoundedWait.Approaches | internal/dispatcher/dispatcher.go:73-112 | each visit of its queue that does not fail brings a job nearer; pushes never put anything ahead of it |
| BoundedWait.PoppedInTime | internal/dispatcher/dispatcher.go:73-112 | a job with p ahead in a queue of weight w, f of whose turns fail, is popped within ((p + f) / w + 1) times the schedule length polls |
| BoundedWait.PoppedDespiteErrors | internal/dispatcher/dispatcher.go:79-97 | the same with f all failed polls, so (p / w + 1) times the schedule length if none fails |

## Left out

- Goroutines, channels and wait groups as Dafny code: the dispatcher, the workers, the scheduler and `Server.Run` are transitions of a state machine, so that their interleavings are covered.
- `DeleteJob` in interleaved runs: it is a plain pipeline, and deleting a job that somebody holds breaks the protocol's invariants.
- Network errors with an unknown outcome: a failed call is one that had no effect, except for repeated enqueues (`Idempotence`).
- A use for the score of the active set: it is stored (`Conservation.ActiveDeadline`) and never read, since no reaper for stuck jobs exists (README.md:106).
- The formatting of error texts: the stack trace of a panic and the quotes around a type without a handler.
- `GetJobsByStatus` and `GetJob` listings, the dashboard, configuration, the command line programs, metrics, logging and the real-time side of `TimeoutMiddleware`.
- Floating point in `NextDelay`: attempts are integers and the sums are exact in float64 up to attempt 9741; beyond that only the overflow is claimed, which rounding cannot undo.
- Postgres JSONB canonicalisation, `updated_at`, and the queue statistics query, which is a plain GROUP BY.
- Liveness of the whole system (that a due job eventually runs) beyond `BoundedWait.PoppedInTime` and `Drain.ShutdownCanFinish`: it depends on schedulers ticking and handlers returning.
- Drain.ShutdownCanFinish: states that shutdown can always be completed, not that it will be, because a handler that never returns keeps its worker busy and the scheduler's select may start another pass.
