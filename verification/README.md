# Notification delivery: a verified model

The system accepts notification requests over an API, stores one delivery row per request in PostgreSQL, and gets each
delivery to a provider at least once. An outbox table and a relay carry due deliveries to Redis streams, workers claim
and send them under a lease, and scheduler jobs promote, retry, reap and reconcile. PostgreSQL is the only source of
truth: streams and workers may vanish at any moment.

The model takes that system as one transition system and proves what its documentation promises of it over every
interleaving, and where a promise needs more than the code checks, exactly what it needs.

## How it is organised

| file | contents |
|---|---|
| Domain.dfy | statuses, routing, the derived request status |
| Database.dfy | rows and the statements on them, as functions: row moves, recompute, create, jobs |
| Lifecycle.dfy | the protocol: state, steps, runs |
| Integrity.dfy | the invariant of every reachable state, with no timing assumption |
| Leases.dfy | exclusive claims, final rows, cancel, accounting: under the lease discipline |
| Columns.dfy | what each step writes, column by column; sends wait for their time; routing is as asked |
| Requests.dfy | request status agreement and batch counters |
| Recovery.dfy | no lost work |
| Waiting.dfy, Liveness.dfy | endless fair runs: open deliveries move on, and when they end |
| Backoff.dfy | when a retry can come before it is due |
| Relays.dfy | at-least-once publishing |
| Transactions.dfy | the finalising transactions statement by statement, refining the protocol |
| Locks.dfy | exact counters from the row locks alone, however late the workers are |
| Cancels.dfy | which deliveries a cancel can miss |
| PromptRuns.dfy, Budget.dfy | runs of workers that keep their time bounds, the rate-limit wait, and the lease budget |
| Start.dfy, Protocol.dfy | the empty start, the guarantees from it, and the runs that show timing is needed |
| Store.dfy, Scheduler.dfy, Workers.dfy, Notification.dfy | the imperative classes: tables, jobs, pipeline, service |
| BatchCreate.dfy | what a batch create keeps |
| Provider.dfy, Retry.dfy, Template.dfy, Cursor.dfy, Pagination.dfy, Ordering.dfy | error classification, retry policy, renderer, page token, pages, sorting |

`dafny verify dfyconfig.toml` checks everything.

A state holds the delivery, request, batch and outbox rows, the stream contents, the workers with the snapshot and lease
their claim returned, the relays in the middle of a pass, and a clock. Steps are the API's create, batch create and
cancel; a worker's read, claim, start of the provider call, requeue, final marks and death; the promote, sweep, reap and
reconcile statements; a relay's fetch, publish and mark as three separate steps; the purge of old outbox rows; the loss
of all streams; and time passing. A run is any finite sequence of enabled steps. Rows carry a history of what happened to
them, and the state a record of successful publishes; no statement reads either, and the history only limits which rows
the atomic cancel step may spare.

## What the proofs found

- Without any timing assumption attempts never pass the ceiling, batch counters are exact and their clamp at zero never
  fires, no row is marked published before its message is on its stream, and every open delivery can still get claimed.
- `MarkSent`, `MarkFailed` and `MarkRetrying` have no status guard, so exclusive claims, final rows that stay final and
  request statuses that agree need workers to act inside their leases. For each of the three there is a run from the empty
  start that breaks it (`Protocol.TimingIsNeeded`, `Protocol.OverlapIsPossible`): a CANCELLED delivery becomes SENT, a late
  requeue reopens a delivery of a CANCELLED request, and a stale mark hits a row another worker has claimed.
- The startup check (lease longer than the provider timeout) is not enough to keep workers inside their leases. With the
  wired wait of half a lease, what is needed is half the lease, plus one wait step, plus the provider timeout, plus other
  latency, within the lease. `Protocol.BudgetDecides` proves that condition exact for each of the three guarantees.
- The batch counters need no timing at all, not even with statements interleaved: the locked request row pins the status a
  transaction moves from, and the locked batch row the counters it adjusts (`Protocol.CommittedCountersAreExact`).
- Nor does a scheduled send: nothing of it leaves its row before its time, however late workers are (`Protocol.SendsWait`).
- A claim accepts RETRYING rows whatever their `next_retry_at`, so a duplicate message is not always dropped: it can retry a
  delivery early, and `Backoff.BackoffCanBeMissed` is such a run from the empty start, with every worker inside its lease.
  That can happen before the next attempt is due if and only if a copy of the delivery's message is left: on a stream, with a
  worker that has not claimed yet, ahead in a relay pass, or in an open outbox row (`Backoff.EarlyClaimIff`).
- Once no more messages are lost and no part of the system is starved, every open delivery is claimed again or becomes final
  (`Protocol.OpenDeliveriesMoveOn`), and it becomes final if and only if it is not held up for ever by requeues and reaps,
  which use up no attempt (`Protocol.DeliveriesEndIff`).
- A cancel can miss a delivery, and it can do so if and only if a delivery of its request is PROCESSING when its UPDATE runs
  (`Cancels.CancelMissesIff`; `Cancels.CancelCanMiss` is such a run). That takes a request with several deliveries, which the
  tables allow and the API never stores: in every reachable state each request has exactly one, and a successful cancel
  leaves nothing open.
- The drain loops end for every batch size but zero; a negative one fails at the first statement. The relay loop returns,
  when publishing fails for fixed rows, if and only if fewer of the open rows fail than a batch holds
  (`Scheduler.RelayEndsIff`); otherwise it fetches full batches for ever. With failures of any kind its passes are bounded if
  and only if the full passes in which nothing gets through are (`Scheduler.RelayBoundedIff`), as in an outage that ends.
- The documentation calls the result of `MissingVariables` a set; a name required twice is listed twice. It says that
  Retry-After is honoured for 429 and 503; the code reads it for 429 only, and the header of a 503 is dropped
  (`Provider.UnavailableIgnoresRetryAfter`). The model follows the code.

## Model

| member | source | states |
|---|---|---|
| Protocol.EveryStateIsSound | internal/delivery/retry.go:49-73 | in every state reachable from the empty start, stale workers and all faults included: attempts lie in 0..max, below max for open rows and worker snapshots; `sent` is the number of the batch's requests that are SENT or PARTIAL, `failed` of the FAILED ones, `cancelled` of the CANCELLED ones, `pending` of the PENDING ones, `total` of all; every published mark has its append |
| Protocol.TimelyStatesAreExclusive | internal/adapters/postgres/delivery.go:58-116 | if every worker write of a run falls inside its lease: one live worker per delivery, each owning its PROCESSING row with its own lease; request statuses agree; claims are accounted for |
| Protocol.CommittedStatesAreSound | internal/adapters/postgres/delivery.go:80-164 | with marks and cancels interleaved statement by statement, each worker statement issued inside its lease: exclusive claims, agreeing requests, accounted claims, exact counters and bounded attempts in every committed state |
| Protocol.CommittedCountersAreExact | internal/adapters/postgres/delivery.go:118-164 | each counter column is the number of requests with its statuses in every committed state of any statement run from the empty start, with no timing assumption |
| Protocol.ReachableCancelClosesAll | internal/adapters/postgres/request.go:146-177 | in every reachable state a cancel spares nothing: its request has one delivery, which ends CANCELLED with its request, and no other delivery changes |
| Protocol.CommittedCancelClosesAll | internal/adapters/postgres/request.go:149-177 | the same at the commit of a cancel whose statements interleave with other timely ones: its request and its one delivery end CANCELLED, and rows of other requests stay |
| Protocol.SendsWait | internal/adapters/postgres/scheduler.go:23-40 | with no timing assumption: before its send time a delivery is SCHEDULED or CANCELLED, unclaimed, and without outbox row, relay entry, message or worker |
| Protocol.MessagesGoWhereAsked | internal/notification/service.go:186-218 | in every reachable state each delivery has its request's channel and priority, and everything on the outbox, on a stream, with a relay or a worker names its delivery and request and is on the stream of that channel and priority |
| Protocol.BudgetDecides | internal/platform/config/config.go:186-200 | from the empty start and for every validated configuration with a positive outbox batch: prompt runs keep claims exclusive if and only if it fits the budget, and likewise request agreement, and likewise final rows |
| Protocol.OpenDeliveriesMoveOn | internal/scheduler/scheduler.go:94-125 | with positive batch sizes and waits that are not negative, whatever failed before: in an endless timely run that loses no message and in which job runs and outbox polls that meet no lock, reaps, relay steps, stream reads and claims recur as long as there is work, every delivery is claimed again or becomes final |
| Protocol.DeliveriesEndIff | internal/scheduler/scheduler.go:94-125 | in such runs a delivery becomes final if and only if the number of its attempt-free requeues and reaps is bounded |
| Protocol.TimingIsNeeded | internal/adapters/postgres/delivery.go:80-116 | for every configuration with a positive outbox batch and non-negative waits: a run from the empty start that ends with a request disagreeing with its delivery, and one that turns a CANCELLED delivery into a SENT one |
| Protocol.OverlapIsPossible | internal/adapters/postgres/delivery.go:58-90 | a run from the empty start that ends with a live worker whose row another worker has finished |
| Start.InitialHolds | migrations/000002_deliveries.up.sql:6-22 | empty tables satisfy every invariant the theorems start from |
| Integrity.RunKeepsWellFormed | internal/adapters/postgres/delivery.go:58-116 | over any run: SCHEDULED has send_at, RETRYING next_retry_at, PROCESSING locked_until, attempts stay bounded, keys stay unique, every outbox row, message, worker and relay entry names an existing delivery by its exact key with its routing |
| Integrity.MovesAreGuarded | internal/adapters/postgres/delivery.go:61-116 | every row update of a step hits an existing row within its WHERE guard, and a mark's attempt count within the policy's bound |
| Integrity.StepRows | internal/adapters/postgres/scheduler.go:25-147 | a step changes an existing row by its own move and by nothing else, and never deletes one |
| Integrity.StepNewRows | internal/notification/service.go:156-220 | rows a step adds are as their builder made them, for requests that did not exist before |
| Columns.StepInColumns | internal/adapters/postgres/delivery.go:61-116 | the columns each step writes to a stored row and what they hold afterwards, action by action, everything else unchanged |
| Columns.ChoiceInColumns | internal/adapters/postgres/scheduler.go:27-78 | a job chooses only SCHEDULED rows with send_at reached, RETRYING rows with next_retry_at reached, or PENDING rows idle for long enough without an open outbox row |
| Columns.ReapedIsDue | internal/adapters/postgres/scheduler.go:93-106 | a row whose lease has run out is released with its attempts and is due for the sweep at that very instant |
| Columns.QueueInColumns | internal/scheduler/jobs.go:31-40 | what each step does to each stream: a read takes its head, a publish appends its entry to the entry's own stream, a loss empties it, nothing else touches it |
| Columns.CreateIsOpen | internal/adapters/postgres/request.go:31-66 | in every state a create with fresh identifiers and a free key is possible, and stores its rows |
| Columns.PurgeIsOpen | internal/adapters/postgres/scheduler.go:207-215 | a purge is possible at any time and leaves exactly the rows that were not published before the given instant |
| Columns.CancelIsOpen | internal/adapters/postgres/request.go:146-177 | in every state a cancel of a request with a SCHEDULED, PENDING or RETRYING delivery is possible, and closes exactly those |
| Columns.RunKeepsBack | internal/adapters/postgres/scheduler.go:23-40 | over any run, what has not reached its send time stays parked and unknown to outbox, relays, streams and workers |
| Columns.RunFollows | internal/notification/service.go:186-218 | over any run every delivery keeps the channel and priority of its request |
| Database.DueInColumns | internal/adapters/postgres/scheduler.go:27-78 | the rows each job selects, exactly, by status, send_at, next_retry_at, updated_at and open outbox rows |
| Database.JobInColumns | internal/adapters/postgres/scheduler.go:108-147 | what a job writes: its rows become PENDING now (but for reconcile), each gets one open outbox row with its own stream and message, nothing else changes |
| Database.CancelInColumns | internal/adapters/postgres/request.go:158-166 | exactly the SCHEDULED, PENDING and RETRYING rows of the request are cancelled, and none is found when all are PROCESSING or final |
| Database.PurgeInColumns | internal/adapters/postgres/scheduler.go:207-215 | exactly the rows published before the given instant are removed |
| Leases.LeaseExclusivity | internal/adapters/postgres/delivery.go:58-77 | over timely runs every live worker owns its row, no two live workers share a delivery, and every worker write happens on an owned row |
| Leases.LiveRowsAreLeftAlone | internal/adapters/postgres/scheduler.go:97-106 | no claim, reap, cancel, job or other worker touches the row of a live worker |
| Leases.TerminalRowsAreFinal | internal/domain/enums.go:83-91 | over disciplined runs a SENT, FAILED or CANCELLED row never changes in any column |
| Leases.CancelClosesOpenRows | internal/adapters/postgres/request.go:149-177 | the atomic cancel step: every cancellable row it does not spare is cancelled, at least one is, and no other row changes; which rows it can spare is Cancels.CancelMissesOnlyProcessing |
| Cancels.CancelMissesOnlyProcessing | internal/adapters/postgres/request.go:149-177 | whatever timely statements run between a cancel's UPDATE and its commit, every delivery cancellable at the UPDATE ends CANCELLED, and every delivery of the request open after the commit was PROCESSING at the UPDATE |
| Cancels.CancelMissesIff | internal/adapters/postgres/request.go:149-177 | from every sound state in which a cancel can run its UPDATE: some timely statements lead to a commit that leaves a delivery of its request open if and only if one of them is PROCESSING at that instant |
| Cancels.CancelCanMiss | internal/adapters/postgres/request.go:158-166 | such a run: the request has two deliveries, every worker is in time, and the successful cancel of that request leaves one of them open |
| Cancels.RunKeepsOneEach | internal/notification/service.go:154-220 | every run keeps one delivery for each request |
| Cancels.CancelClosesTheOne | internal/adapters/postgres/request.go:149-177 | with one delivery a cancel spares nothing, and the request ends CANCELLED |
| Cancels.RunKeepsFamily | internal/adapters/postgres/delivery.go:17-29 | a stored request gains and loses no delivery in any run |
| Locks.LocksKeepCounters | internal/adapters/postgres/batch.go:96-112 | over any statement run, however late the workers, the locks keep the counters exact |
| Locks.CommitKeepsExact | internal/adapters/postgres/delivery.go:148-163 | a commit keeps the counters exact, whatever status was aggregated |
| Leases.NoSendAfterCancel | internal/adapters/postgres/request.go:146-177 | over timely runs no provider call ever starts for a delivery that was cancelled, whatever messages remain |
| Leases.ClaimAccounting | internal/worker/process.go:42-170 | over disciplined runs claims = sends + failures + retries + requeues + reaps + one if PROCESSING, attempts = counted failures, and claims <= max + requeues + reaps |
| Leases.ProgressMeasure | internal/worker/process.go:99-170 | every status change except a requeue or a reap lowers (attempts left, phase) lexicographically |
| Requests.RequestStatusAgrees | internal/adapters/postgres/delivery.go:118-164 | over disciplined runs every request shows the aggregate of its deliveries, however many it has |
| Requests.RetryMarkAgreesIff | internal/adapters/postgres/delivery.go:92-103 | a retry mark, which skips the recompute, keeps agreement exactly when the row it hits is open or a sibling is |
| Requests.ReopenAgreesIff | internal/adapters/postgres/delivery.go:92-103 | moving one row to an open status without recompute keeps agreement exactly when some delivery of the request was open |
| Requests.RecomputeAgrees | internal/adapters/postgres/delivery.go:120-164 | moves confined to one request followed by its recompute restore agreement for all requests |
| Requests.BatchCountersAreExact | internal/adapters/postgres/batch.go:19-112 | over any run each counter column of a batch is the number of its requests with that column's statuses, with no timing assumption |
| Requests.AdjustIsExact | internal/adapters/postgres/batch.go:98-112 | moving a request between buckets keeps the counters exact, and the clamped counter was at least one |
| Requests.InsertAllMembers | internal/adapters/postgres/batch.go:34-60 | a batch insert adds as many members to its own pending bucket as it created, and none elsewhere |
| Recovery.NoLostWork | internal/adapters/postgres/scheduler.go:60-106 | with positive batch sizes, after any run, faults included, every open delivery has a fault-free continuation that gets it claimed once more |
| Recovery.OpenDeliveryGetsClaimed | internal/scheduler/jobs.go:54-113 | builds that continuation for each open status: promote, sweep, reconcile, or reap and sweep |
| Recovery.DueReachesOutbox | internal/adapters/postgres/scheduler.go:23-58 | a due row becomes PENDING with an open outbox row, however many rows are due before it |
| Recovery.OutboxReachesStream | internal/scheduler/jobs.go:14-52 | every open outbox row's message reaches its own stream, whatever the batch size |
| Recovery.StreamReachesClaim | internal/worker/process.go:19-60 | a message for a claimable delivery gets it claimed, whatever is queued before it |
| Liveness.GetsTurn | internal/scheduler/jobs.go:54-113 | in a fair run each job gets to every delivery that waits for it, however many are ahead: it becomes claimable with an open outbox row no relay has sent, or is settled |
| Liveness.OldRowSettles | internal/scheduler/jobs.go:14-52 | in a fair run an open outbox row no relay has sent gets its delivery claimed or finished, however many rows are older |
| Liveness.StreamSettles | internal/worker/process.go:19-60 | in a fair run a queued message gets its delivery claimed or finished, whatever is queued before it |
| Liveness.FairRunsExist | internal/scheduler/scheduler.go:139-152 | every finite run that loses nothing and leaves nothing to do goes on as a fair one |
| Waiting.AwaitsStep | internal/adapters/postgres/scheduler.go:108-147 | a delivery waits for its job, without new outbox rows, until it has its turn, is claimed, or is final |
| Waiting.AheadShrinks | internal/adapters/postgres/scheduler.go:23-58 | once the clock is past a rank no delivery joins the rows a job takes first, given waits that are not negative |
| Backoff.EarlyClaimIff | internal/adapters/postgres/delivery.go:58-77 | in timely runs a RETRYING delivery can be claimed before its next_retry_at if and only if a copy of its message is on a stream, held by a worker, ahead in a relay pass, or in an open outbox row |
| Backoff.NoCopyNoClaim | internal/adapters/postgres/scheduler.go:42-58 | with no copy left it stays RETRYING with the same instant and claim count until then, or becomes final, and gets no new copy |
| Backoff.CopyIsClaimed | internal/adapters/postgres/delivery.go:58-77 | any copy left leads to a claim with no time passing, wherever the copy is |
| Backoff.BackoffCanBeMissed | internal/adapters/postgres/delivery.go:92-103 | a timely run from the empty start to a delivery told to wait a second that can be claimed within it |
| Relays.RelayIsAtLeastOnce | internal/scheduler/jobs.go:14-52 | with any number of interleaved relays, a row marked published has had its message appended to its own stream, so a failed publish is never marked |
| Relays.StepOutbox | internal/adapters/postgres/outbox.go:13-70 | outbox rows keep all but their mark, open ones stay unless a relay marks them, only a relay's mark publishes, and new rows are open, dated now, under identifiers never seen before, for new deliveries or ones a job chose |
| Transactions.StatementsRefineAtomic | internal/adapters/postgres/delivery.go:80-164 | whatever any interleaving of timely statements commits is a disciplined run of the atomic protocol |
| Transactions.CommitIsAtomic | internal/adapters/postgres/delivery.go:118-164 | what a commit makes visible equals what its atomic step writes at that instant, because the request row was locked before the statuses were read |
| Transactions.StatementRefines | internal/adapters/postgres/request.go:149-177 | each timely statement keeps the lock invariant and stands for no, or one, atomic step |
| Transactions.CommittedStatesAgree | internal/adapters/postgres/delivery.go:118-164 | committed requests agree with committed deliveries, counters are exact, committed final rows are final |
| Transactions.RollbackIsCrash | internal/adapters/postgres/delivery.go:80-90 | a rolled back mark equals a worker that gave up; a rolled back cancel leaves no trace |
| Transactions.CommitKeepsReads | internal/adapters/postgres/delivery.go:120-164 | one transaction's commit leaves everything another open one has read still true |
| Transactions.ReaperWaits | internal/adapters/postgres/scheduler.go:95-106 | the reaper cannot take a row that an open mark has locked |
| Budget.WaitForRateLimit | internal/worker/process.go:172-197 | the wait loop ends, with the answer and at the instant of the recursive specification |
| Budget.WaitGrantedIff | internal/worker/process.go:172-197 | the wait is granted exactly when some call grants the token and every earlier one was denied by the deadline; it returns with that call |
| Budget.WaitIsBounded | internal/worker/process.go:172-197 | the wait is over one step and one limiter call after its deadline at the latest |
| Budget.WaitBoundIsReached | internal/worker/process.go:172-197 | no smaller bound holds: some answers grant a token at that very instant |
| Budget.PromptRunsAreTimely | cmd/worker/main.go:73-83 | within the budget, workers that keep their own time bounds never write on an expired lease |
| Budget.NeverReapedInFlight | internal/platform/config/config.go:190-194 | within the budget, a worker on time owns its row and the reaper cannot take it |
| Budget.PromptRunsKeepFinalRows | internal/domain/enums.go:83-91 | within the budget, final rows stay final in every run of prompt workers |
| Budget.PastBudgetFinalRowsChange | internal/worker/process.go:42-83 | past the budget, a run of prompt workers turns a CANCELLED delivery into a SENT one |
| Budget.BudgetIsExact | internal/platform/config/config.go:186-200 | a validated configuration keeps final rows final in all prompt runs if and only if it fits the budget |
| Budget.ValidationAdmitsLateRuns | internal/platform/config/config.go:190-194 | any provider timeout in the upper half of the lease passes the startup check and misses the budget |
| Budget.WaitMax | cmd/worker/main.go:81 | the wired wait is positive even for leases too short to halve |
| Workers.Worker.Process | internal/worker/process.go:19-83 | the message is acknowledged whatever happens, and the tables end as the specification of the pipeline says |
| Workers.Worker.Handle | internal/worker/process.go:42-83 | claim, wait, load, send and mark in order, each failure leaving the rows of the step before |
| Workers.Worker.HandleFailure | internal/worker/process.go:99-135 | an open breaker requeues without an attempt; any other refusal writes the policy's outcome, or nothing if the write fails |
| Workers.Worker.RequeueWithoutAttempt | internal/worker/process.go:161-170 | RETRYING one wait step later with the attempts of the claim |
| Workers.Worker.constructor | internal/worker/worker.go:100-125 | non-positive waits get their defaults |
| Workers.ProcessOutcome | internal/worker/process.go:42-170 | SENT, FAILED, left PROCESSING, and a counted attempt each happen if and only if the stated answers occurred; leases are released, retry times are the schedule's or one wait step on; no other row changes |
| Workers.ProcessIsARun | internal/worker/process.go:19-83 | what the pipeline writes when nobody else writes meanwhile is what a protocol run of its worker writes; when its calls keep the time that run is prompt |
| Workers.InterleavedIsARun | internal/worker/process.go:42-135 | with any protocol steps of others between claim, provider call and final write: that write is enabled and puts what the row as claimed calls for into the rows as they are by then; inside the lease the whole is a timely run |
| Workers.BoundedCallsKeepTime | internal/worker/process.go:172-197 | bounded limiter and provider latency keep the pipeline on time |
| Store.Store.ClaimDelivery | internal/adapters/postgres/delivery.go:58-77 | succeeds exactly on PENDING and RETRYING rows and sets status, lease and updated_at of that row alone, which it returns; otherwise nothing changes |
| Store.Store.MarkSent | internal/adapters/postgres/delivery.go:79-90 | unguarded update of status, lease and updated_at plus recompute in one transaction, rolled back when the request is absent |
| Store.Store.MarkFailed | internal/adapters/postgres/delivery.go:105-116 | the same with status FAILED and the attempt count, all or nothing |
| Store.Store.MarkRetrying | internal/adapters/postgres/delivery.go:92-103 | one unguarded update of status, attempts, next_retry_at, lease and updated_at, no recompute |
| Store.Store.RecomputeRequestStatus | internal/adapters/postgres/delivery.go:118-164 | the collecting loop and the counting loop together yield the aggregate, written with the batch adjustment only on a change |
| Store.Store.AdjustBatchCounters | internal/adapters/postgres/batch.go:96-127 | one unit leaves the counter column of the old status and joins that of the new one, SENT and PARTIAL sharing one; clamped at zero; nothing within one column |
| Store.Store.CreateNotification | internal/adapters/postgres/request.go:31-66 | conflicts exactly on a taken key and then changes nothing, else stores request, delivery and, if immediate, outbox row with the item's own columns, stream and message, and changes no other row |
| Store.Store.CancelRequest | internal/adapters/postgres/request.go:146-177 | absent, nothing SCHEDULED, PENDING or RETRYING, or exactly those rows cancelled and the status recomputed; errors change nothing |
| Store.Store.CreateBatch | internal/adapters/postgres/batch.go:16-66 | the insert loop equals the batch specification, created plus duplicates is the number of items, any error leaves the tables as they were |
| Store.Store.TakeLowest | internal/adapters/postgres/scheduler.go:27-34 | ORDER BY with LIMIT: distinct candidates, in ascending rank, as many as fit, none lower left out |
| Store.Store.TransitionAndEnqueue | internal/adapters/postgres/scheduler.go:108-147 | the chosen due rows are moved and enqueued, one outbox row each |
| Store.Store.ReapStuck | internal/adapters/postgres/scheduler.go:95-106 | exactly the PROCESSING rows with locked_until before now become RETRYING, due now, without a lease; they are counted |
| Store.Store.FetchUnpublishedOutbox | internal/adapters/postgres/outbox.go:29-57 | the oldest open rows up to the limit, oldest first, with their own stream and message |
| Store.Store.MarkOutboxPublished | internal/adapters/postgres/outbox.go:59-70 | exactly the given rows are marked |
| Scheduler.Scheduler.Drain | internal/scheduler/jobs.go:54-87 | for every batch size but zero and a fixed clock the loop ends; it moves only SCHEDULED rows with send_at reached (promote) or RETRYING rows with next_retry_at reached (sweep), all of them with a positive batch and no failure, and writes one outbox row each; a negative batch moves nothing |
| Scheduler.OneShotMovesExactlyDue | internal/adapters/postgres/scheduler.go:108-147 | that one batch moves exactly the rows whose send_at or next_retry_at is reached, gives each exactly one new outbox row with its own stream and message, and changes nothing else |
| Scheduler.JobConcat | internal/scheduler/jobs.go:54-87 | two batches with disjoint rows are one batch |
| Scheduler.DueAfterBatch | internal/adapters/postgres/scheduler.go:23-58 | a batch takes its own rows out of the due set and no others |
| Scheduler.ZeroBatchNeverEnds | internal/scheduler/jobs.go:56-69 | with batch size zero the loop changes nothing and never sees a short batch |
| Scheduler.Scheduler.RelayOutbox | internal/scheduler/jobs.go:14-52 | with failures that vary by pass and only finitely many full passes that stall, the loop ends after at most as many passes as that and the open rows, and one more; what stays open failed in the last pass, every other message is appended once, in order, to its own stream; with fixed failures exactly the failing rows stay open; without a positive batch nothing happens |
| Scheduler.RelayEndsIff | internal/scheduler/jobs.go:20-51 | with fixed failing rows: some execution of the loop returns, every execution has at most as many full passes as open rows, and every full pass gets something through, each if and only if fewer open rows fail than a batch holds |
| Scheduler.RelayBoundedIff | internal/scheduler/jobs.go:20-51 | whatever fails when: the executions of the loop are bounded if and only if the stalled full passes in them are |
| Scheduler.OutageEnds | internal/scheduler/jobs.go:31-50 | if from some pass on fewer open rows fail than a batch holds, at most the passes before it stall |
| Scheduler.FewFailuresGetThrough | internal/scheduler/jobs.go:31-50 | fewer failing open rows than a batch in every pass is enough for every full pass to get something through |
| Scheduler.ManyFailuresFillBatches | internal/scheduler/jobs.go:20-51 | with a batch of failing open rows or more, every fetch of every execution is a full batch |
| Scheduler.Scheduler.PublishAll | internal/scheduler/jobs.go:31-40 | the identifiers that got through, in order, and exactly their messages on the streams |
| Scheduler.AppendedInOrder | internal/scheduler/jobs.go:31-40 | every stream keeps what it had and gets its own messages behind that, in the order of the rows |
| Scheduler.PassStallsIff | internal/scheduler/jobs.go:31-50 | a pass changes nothing if and only if every publish in it fails |
| Scheduler.Scheduler.ReapStuck | internal/scheduler/jobs.go:89-100 | every PROCESSING row with locked_until before now becomes RETRYING, due now, without a lease; nothing else changes |
| Scheduler.Scheduler.Reconcile | internal/scheduler/jobs.go:102-113 | one batch of the longest idle PENDING rows without an open outbox row gets new outbox rows; no delivery row changes |
| BatchCreate.BatchDeduplicatesExactly | internal/adapters/postgres/batch.go:34-52 | an item is stored, with the columns of its request, delivery and outbox row, exactly when it is keyless or the first with a key not stored before; a skipped item leaves no row |
| BatchCreate.CreateStoresOneOfEach | internal/notification/service.go:154-220 | a create adds one request and one delivery with the item's user, key, channel, priority and instant; a future send time parks it without an outbox row, otherwise it is pending with one open outbox row on the stream of that priority and channel; no other row changes |
| BatchCreate.CreatedIsKept | internal/adapters/postgres/batch.go:54-63 | the created count is the number of kept items |
| BatchCreate.InsertAllLeavesForeign | internal/adapters/postgres/batch.go:34-52 | the loop touches no identifier foreign to its items |
| Notification.CreateIsIdempotent | internal/notification/service.go:68-100 | for any interleaving of check, insert and resolve by any callers: one request per (user, key), all answered callers get it, at most one reports it as new, and exactly one if and only if its creator was answered |
| Notification.LostCallerResolves | internal/notification/service.go:86-95 | in every reachable state a caller that lost the race finds the winner, and only it, so its lookup cannot come back empty |
| Integrity.InsertKeepsKeysUnique | migrations/000001_core.up.sql:38-40 | an insert the unique index lets through keeps at most one request per (user, key) |
| Notification.Service.Create | internal/notification/service.go:65-100 | a replay writes nothing, an unrenderable draft writes nothing, a lost race returns the winner, anything else is stored with the draft's user, key, channel, priority and send time |
| Notification.Service.CreateBatch | internal/notification/batch.go:20-81 | the same for a batch under one key; items take the batch's user; one unrenderable item stores nothing |
| Notification.Service.Build | internal/notification/service.go:154-220 | fails exactly when the template is absent, for another channel, or lacks a variable |
| Notification.Service.Cancel | internal/notification/service.go:123-133 | another user's notification looks absent and stays as it is |
| Provider.RetryAfterIff | internal/adapters/provider/webhook.go:90-155 | a Retry-After is passed on if and only if the status is 429 and the header reads as seconds or a date |
| Provider.PermanentIff | internal/adapters/provider/webhook.go:66-114 | success exactly for 2xx; permanent exactly for a request that could not be built and for 4xx other than 429 |
| Provider.RateLimitSetsRetry | internal/adapters/provider/webhook.go:93-99 | the seconds of a 429 are when the next attempt is due, as long as one is left |
| Provider.DateSetsRetry | internal/adapters/provider/webhook.go:93-155 | a 429 with a date to come retries at that date, one with a date gone by retries on schedule |
| Provider.HeaderAsks | internal/adapters/provider/webhook.go:139-155 | seconds if the header is a number, the time to its date if it is one, nothing otherwise |
| Provider.UnavailableIgnoresRetryAfter | internal/adapters/provider/webhook.go:107-114 | the seconds of a 503 are dropped: the outcome is that of a plain error |
| Retry.RetryPolicy.EvaluateFailure | internal/delivery/retry.go:40-73 | the method with its advancing random source computes the policy's outcome |
| Retry.RetryPolicy.NextBackoff | internal/delivery/retry.go:75-87 | the reassigned index picks the attempt's entry, or the last one |
| Retry.RetryPolicy.Jitter | internal/delivery/retry.go:89-103 | one draw, truncated toward zero and clamped; no draw with jitter off |
| Retry.RetrySchedule | internal/delivery/retry.go:40-103 | over a whole run of transient failures the i-th retry waits a positive Retry-After as given, else its schedule entry (the last one once used up) within the jitter ratio and truncation, else a minute |
| Retry.FailureRunShape | internal/delivery/retry.go:49-73 | over a run of failures every outcome is the policy's, attempts count up by one, and only the last one gives up |
| Retry.TransientRunExhausts | internal/delivery/retry.go:49-73 | with transient failures only: max - 1 retries, then FAILED at the ceiling |
| Retry.JitterWithinRatio | internal/delivery/retry.go:89-103 | for ratios in 0..1 the wait is non-negative and within the ratio of its base, up to truncation |
| Retry.WaitByDraw | internal/delivery/retry.go:89-103 | the wait is the base stretched by the ratio as the draw says: the lower end at 0, the base at one half |
| Retry.WaitGrowsWithDraw | internal/delivery/retry.go:89-103 | a larger draw never shortens the wait |
| Retry.WaitNonNegativeIff | internal/delivery/retry.go:89-103 | no draw gives a negative wait if and only if jitter is on or the base is non-negative |
| Domain.AggregateRequestStatus | internal/domain/status.go:3-43 | the counting loop computes the documented rules on the set of statuses |
| Domain.AggregateByCounts | internal/domain/status.go:3-43 | each result if and only if its condition on the multiset of statuses; PENDING iff empty or something open, PARTIAL iff all final and 0 < sent < total |
| Domain.AggregateIgnoresPhase | internal/domain/enums.go:83-91 | swapping one non-terminal status for another never changes the result |
| Pagination.FollowPages | internal/adapters/postgres/request.go:82-144 | a client following the tokens gets, once each, exactly the rows of its user with the given status, channel and creation range, in strictly descending (created_at, id) order, comes to an end, and every page but the last is full |
| Pagination.FollowGrowingPages | internal/adapters/postgres/request.go:82-144 | with rows inserted between pages, whatever their age: every row asked for that was there from the start exactly once, no row twice, only rows asked for, strictly descending, and an end once inserts stop |
| Pagination.ListRequests | internal/adapters/postgres/request.go:84-144 | the growing WHERE clause and the extra row give the newest rows of the user with the given status, channel and creation range that are older than the cursor in (created_at, id); rows are missing only from a full page, which then has a cursor |
| Pagination.BaseCondsMean | internal/adapters/postgres/request.go:84-107 | the conjuncts of a filter hold exactly for the rows of its user with the status, channel and creation range it gives |
| Pagination.CursorResumes | internal/adapters/postgres/request.go:108-112 | asking from a row's key on yields exactly the rest of the list |
| Pagination.SelectionIsDescending | internal/adapters/postgres/request.go:114-117 | the query result holds each matching row once, in strictly descending (created_at, id) order |
| Pagination.ListFilter.Normalize | internal/domain/query.go:22-34 | the limit becomes the page size in force and nothing else changes |
| Pagination.PageSize | internal/domain/query.go:23-34 | 50 without a limit, 200 at most |
| Cursor.TokenRoundTrip | internal/transport/http/cursor.go:13-43 | decoding gives back the identifier and the instant as 64 bits hold it; an absent instant becomes the epoch |
| Cursor.TokenIsLosslessIff | internal/transport/http/cursor.go:13-43 | nothing is lost if and only if the instant fits in 64 bits of nanoseconds |
| Cursor.WrapIsModular | internal/transport/http/cursor.go:14-18 | an instant outside 64 bits comes back modulo 2^64 |
| Cursor.ParseIsExact | internal/transport/http/cursor.go:33-36 | the parser takes exactly the 64-bit numbers, with or without a sign |
| Cursor.ParseNeedsDigits | internal/transport/http/cursor.go:33-36 | what it takes is an optional sign and at least one digit, nothing else |
| Cursor.BreaksAreIgnored | internal/transport/http/cursor.go:25-28 | a line break anywhere in a token changes nothing |
| Cursor.DecodeIsExact | internal/transport/http/cursor.go:24-43 | a token is accepted exactly when its text is a 64-bit number and an identifier around the first separator |
| Cursor.Decode64IsExact | internal/transport/http/cursor.go:25-28 | base64url text is decoded exactly when it has the alphabet's characters only and does not end in a single left-over one |
| Cursor.ParseIdIsExact | internal/transport/http/cursor.go:37-40 | an identifier is read exactly from hexadecimal digits with dashes in their places |
| Cursor.Base64RoundTrip | internal/transport/http/cursor.go:20-25 | unpadded base64url (section 5 of RFC 4648) decodes what it encoded, for every byte string |
| Cursor.Int64RoundTrip | internal/transport/http/cursor.go:19-33 | decimal printing and parsing of 64-bit values, with no separator in the text |
| Cursor.IdRoundTrip | internal/transport/http/cursor.go:19-37 | the canonical identifier text, lower-case hexadecimal with dashes after 8, 12, 16 and 20 digits, parses back, and holds no separator |
| Template.ScanIsExact | internal/template/service.go:23-24 | the scanner accepts a prefix with a key if and only if that prefix is a placeholder with that key |
| Template.SplitIsLossless | internal/template/service.go:69-80 | splitting prints back to the content and is leftmost and non-overlapping |
| Template.SegmentationIsUnique | internal/template/service.go:69-80 | there is no other such segmentation |
| Template.RenderFillsSegments | internal/template/service.go:72-80 | rendering is the concatenation of the mapped segments, so values are never scanned again |
| Template.RenderIsIdentity | internal/template/service.go:69-80 | with no placeholder's key supplied the content stays as it is |
| Template.MissingVariables | internal/template/service.go:56-67 | the loop and the sort give the sorted list of missing names |
| Template.MissingIsExact | internal/template/service.go:56-67 | the result is sorted and lists a name exactly as often as it is required and absent or blank |
| Template.Render | internal/template/service.go:36-54 | each error if and only if its cause; on success every hole of a required name shows its non-blank value |
| Ordering.SortIsSorted | internal/template/service.go:65 | sorting yields a sorted permutation for any total order |
| Ordering.FirstDifferenceDecides | internal/template/service.go:65 | names are ordered by their first differing character, ascending, and a prefix comes first |

## Left out

- Partitions: their creation, archiving and drop; the drop removes open rows too, so the lifecycle is stated without it.
- HTTP handlers, DTOs, routing, middleware, JWT and OpenAPI.
- Input validation of create requests and batches, the limit of 1000 items included; drafts here are validated ones.
- The breaker, the rate limiter and the provider client: their answers are inputs, any sequence of them.
- Provider responses: bodies and message identifiers; which dates the HTTP date parser accepts is an input.
- Environment parsing: the startup validation of priorities and the list parsers; only the checks the protocol relies on are modelled.
- Metrics, tracing, logs and dead-letter publishing, which no protocol step reads.
- Replica lag, clock skew between hosts, deadlock aborts and identifier collisions: one clock, a fresh primary, unique ids, integer instants.
- 64-bit overflow of durations and floating-point rounding: durations are integers and jitter is computed over the reals.
- Columns that no decision reads: recipient, content, template id, provider message id, last error, correlation id.
- Stream names: a stream is its (priority, channel) pair, which the name spells out.
- Redis consumer groups: reading removes a message, and a message read by a worker that dies is lost; the pending list of unacknowledged entries is not modelled.
- Transactions of create, batch create, promote, sweep and reconcile are single steps; only marks and cancels, which read what others write, are taken statement by statement.
- Transactions.StatementsRefineAtomic: a cancel's UPDATE is one instant, taken when none of its rows is locked by an open transaction.
- Scheduler.Scheduler.RelayOutbox: a failing mark, and a fetch that fails for another reason than its limit, appear only in the protocol, as the end of the pass.
- Scheduler.Scheduler.Drain: the clock stands still during one call, and no other writer interferes; interference is in the protocol.
- Workers.Worker.Process: no other writer interferes during one call; Workers.InterleavedIsARun covers interference between its store calls.
- Protocol.OpenDeliveriesMoveOn: that streams, passes and workers are served is assumed, so starvation of low priorities by high ones is not modelled; nor are publishes that fail for ever, since failing ones count as lost; crashes of workers past their claim and lost claim answers are allowed.
- Scheduler.Scheduler.RelayOutbox also leaves out concurrent inserts during one call; Relays.RelayIsAtLeastOnce covers them.
- Notification.Service.Create: other database errors of the check and the insert, which return the error and write nothing.
- Cursor.IdRoundTrip: the parser accepts the canonical text only, not the prefixed, braced and undashed forms of the library parser.
- Cancellation of the worker's context, which the worker removes before processing; the wait loop still models it.
- The order of outbox rows with equal creation times, which the query leaves open: any such order is allowed.
