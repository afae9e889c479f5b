# A verified model of the durable send pipeline

This project models how Sendrun gets a campaign's messages out: the lease queue over the `tasks` table,
the three-phase send against a provider that honours idempotency keys, the webhooks that come back, and the
smaller stateful parts around them (token bucket, contact import, launch and cancel, the dashboard's
numbers). It proves, over every interleaving of workers, stale executions, reaps, crashes, webhooks and
sweeps, what the repository promises: nothing is lost and nothing is sent twice; and, where the code falls short
of that, exactly when.

## How it is built

* **Statements first.** Every guarded SQL statement is a function on one row (`ClaimRow`, `RetryRow`,
  `ReapRow`, ...). The imperative classes (`TaskTable`, `DurableWorker`, `SqlJobStore`, `FakeEmailProvider`,
  `InMemoryTokenBucket`, `RedisTokenBucket`, `ContactStore`, `Database`) update fields in place and are
  proved against those functions; the state machines are built from the same functions.
* **Spelled out.** What a function on a row does is also stated without it, in columns, statuses and numbers: in the
  contract of the method that runs the statement, or in a lemma named `...Spelled`, `...ByName` or `...ByCases`.
* **Three machines.** `QueueMachine` (any number of executions, a step per statement, ghost counts of reaps and
  applied retries), `SendMachine` (any number of executions of the send, suspended between any two statements,
  including between the provider's cache lookup and its put), and `Pipeline`, which runs the two side by side.
  A step that is not enabled leaves the state alone, so a run is any sequence of actions. Every execution can
  crash at any point, and an acceptance can come back to the worker as a timeout; the provider survives. Two
  smaller machines refine a part each: `ClaimLocks` splits the claim statement into lock and commit and refines the queue machine, and
  `ProviderWiring` gives every call a provider object of its own.
* **Two granularities.** `PerStatement`: each store call is durable at once, as the docstring of
  `services/worker/tasks/send.py` describes it. `PerTransaction`: one commit at the end, as
  `services/worker/main.py` does it; the claim then takes the row lock, changes become visible at the commit
  and a crash rolls the row back. A result that names no granularity holds at both. The imperative `SendEmailTask`
  and `HandleSendEmail` take the phase at which the process dies as a parameter.
* **Time** is one non-decreasing clock in real seconds. Message and event ids are injective in what they are
  hashed from. Random draws, ids and failure rolls are parameters.

| files | part of the repository |
|---|---|
| `Transitions`, `Models` | status tables, shared rows |
| `TaskQueue`, `Worker`, `QueueMachine`, `ClaimLocks`, `Leases`, `Termination`, `Settling` | the lease queue and what its runs keep |
| `JobStore`, `FakeProvider`, `SendTask`, `SendMachine`, `SendSafety`, `SendTheorems`, `Draws`, `AcceptedJobs`, `ProviderWiring` | the send |
| `Webhooks`, `Convergence`, `OutcomeConvergence`, `EarlyEvents` | ingestion, processing, sweeping |
| `Pipeline`, `EndToEnd` | queue and send together, from launch to the last settled task |
| `Fanout`, `Cancellation`, `Progress`, `Analytics` | campaigns and their numbers |
| `RateLimit` | the token bucket |
| `FieldKeys`, `BulkImport`, `ContactBook` | contact import |
| `Prelude` | options and finite sets |

## Where the code does not do what is said about it

The failures of the fence, of the record, of the provider cache, of cancellation and of early events each have a
lemma with a concrete run and one with the exact condition. The remaining items are observations, with the lemma
that bears on them.

* **The fence** of the queue compares owner names only. A worker that leases its own reaped row again defeats it
  (`SameOwnerDefeatsFence`); the fence holds exactly when no running execution of the row has the claiming
  owner's name (`FenceHoldsIffOwnerFresh`).
* **The provider cache.** `get_provider()` builds a provider with an empty cache on every call, where the contract in
  `packages/shared/providers/base.py:122-132` asks for one that remembers. As deployed, a worker that dies between
  acceptance and record causes a second message for the same key (`CrashAndRetrySendsTwice`). For every wiring of
  calls to provider objects, messages equal distinct keys exactly if no call that creates one had looked its key up,
  in vain, after it had been accepted (`OneMessageAKeyIff`); without a crash, abort or timeout after an acceptance
  no wiring duplicates (`OneMessageUnlessInterrupted`). One shared object is the machine all other results are about
  (`SharedIsTheSendMachine`).
* **The record.** With every store call durable at once, an overtaken execution can report success while the job is
  left `failed_transient` (`ReturnedYetNotRecorded`); `RecordLandsIff` says when a record takes effect. It can even be
  left `failed_permanent` for good with its message out (`FailedYetAccepted`); `FailedYetAcceptedIff` names the two
  guards through which every such run passes, and one execution of a job in flight at a time rules it out
  (`AloneNeverContradicts`). With one commit at the end neither can happen (`AcceptedIsAccountedFor`).
* **Cancellation.** With one commit at the end, a worker killed after the provider accepted rolls its claim back, and
  the job can then be cancelled although its message is out (`CancelledYetSent`). At both granularities the message of
  a cancelled job is out, then and ever after, if and only if its key had been accepted when it was cancelled
  (`CancelFreezesKey`); with durable calls that cannot be (`CancelledNeverSent`).
* **Early events.** An event that was processed before its send was recorded is adopted by the record, and no sweep
  selects it again (`AdoptedNeverApplied`, a concrete run). An event stored before the record is applied if and only
  if it is processed directly after the record and before a sweep gives it up (`EarlyAppliedIff`). Whether such a loss
  can be seen is `FateShownInEveryState`: a lost `sent` or superseded status cannot, a lost engagement or verdict can.
* `TASK_TERMINAL` omits `failed`, yet no statement leaves `failed` (`SettledForever`).
* The branch of `send_email_task` for an unrecorded send is never entered (`AxesAgree`).
* The documentation speaks of a janitor that re-drives interrupted launches; `worker.py` has none. Re-driving
  would be harmless (`PassesAreIdempotent`, `PassFansOutOnce`).
* A domain bucket of the analytics page counts every row as `sent`, whatever its status: one queued job makes the two
  halves of the page differ (`QueuedCountsAsSent`), and they agree exactly when every row counts as sent
  (`DomainsMatchCampaigns`).

## Model

| member | source | states |
|---|---|---|
| `SendTheorems.EffectivelyOnce` | services/worker/tasks/send.py:154-217 | in every reachable state messages created equal keys accepted, all answers for one key carry one message id and time with at most one of them not a replay, and each sent job holds exactly that id and time |
| `SendTheorems.AcceptanceIsFinal` | packages/shared/providers/fake.py:140-197 | an accepted key keeps its entry through every later step and crash |
| `SendTheorems.AxesAgree` | services/api/webhooks/processor.py:70-97 | a delivery status or a positive count implies `sent`; `sent` exactly when a message id is set, which implies acceptance under the job's own key; message ids are unique; the recovery branch is unreachable |
| `SendTheorems.StepsFollowTheTable` | packages/shared/transitions.py:102-115 | every step of the machine leaves a job's send status alone or takes an edge of SEND_TRANSITIONS (at transaction level, an edge through the claim made in the same transaction) |
| `Transitions.TableIsTheGraph` | packages/shared/transitions.py:102-115 | the predecessor table, read backwards, is the graph of ten edges |
| `Transitions.RanksByName` | packages/shared/transitions.py:138-144 | deferred, delivered, bounced, complained: each applies over exactly what is before it |
| `SendTheorems.RunGrows` | packages/shared/job_store.py:29-87 | along every run terminal statuses, delivery rank, counts, first timestamps, message id and sent time of a job are never taken back |
| `SendTheorems.CacheAgreesWithLog` | services/api/webhooks/processor.py:41-118 | in every reachable state counters, first timestamps and delivery status of every job agree with the engagement rows and the applied events |
| `SendTheorems.StatusInEveryState` | services/api/webhooks/processor.py:77-97 | in every reachable state the delivery status is the last, in the order deferred, delivered, bounced, complained, of the kinds applied to the job, and none exactly if none of the four has been |
| `Convergence.StatusByName` | services/api/webhooks/processor.py:77-97 | which of the five values the status has, by which of the four kinds have been applied, for any tables that agree with their log |
| `SendTheorems.InterleavingsConverge` | services/api/webhooks/processor.py:41-118 | two runs of any kind that have stored and applied the same events for a message show the same delivery status and counts |
| `SendTheorems.CancelFreezesKey` | services/api/routers/campaigns.py:308-313 | once cancelled, a job stays cancelled and its key is accepted later if and only if it already was |
| `SendTheorems.CancelledNeverSent` | services/api/routers/campaigns.py:308-313 | statement level: a cancelled job was never claimed and its key is accepted neither now nor in any later run |
| `SendTheorems.CancelOnlyQueued` | services/api/routers/campaigns.py:308-313 | cancelling changes no job that has left `queued` |
| `SendTheorems.CancelledJobReturns` | services/worker/tasks/send.py:155-164 | an execution that comes to a cancelled job ends normally and touches neither tables nor provider |
| `SendTheorems.CancelledYetSent` | services/worker/main.py:78-90 | transaction level: a concrete run in which a cancelled job's message is out |
| `SendTheorems.RecordLandsIff` | packages/shared/job_store.py:50-62 | a record leaves the job `sent` if and only if commits come at the end or the job is still `sending` or already `sent` |
| `SendTheorems.ReturnedYetNotRecorded` | packages/shared/job_store.py:75-80 | statement level: a concrete run of two executions in which one reports success and the job is left `failed_transient` |
| `Draws.OutcomesAreDrawn` | services/worker/tasks/send.py:187-217 | over every run at either granularity: a job fails for good only if an execution of it drew an invalid recipient, is put off only if one drew a rate limit or an outage or lost its reply, and its key is accepted only if one drew an acceptance |
| `Draws.DrawRunsOn` | services/worker/tasks/send.py:187-217 | an execution that has drawn and runs on: 429 and 503 end in a transient error and `failed_transient`, an invalid recipient in a permanent one and `failed_permanent`, both without a message; an acceptance in one message and its record |
| `Draws.ClaimableCall` | services/worker/tasks/send.py:154-217 | an undisturbed call of the machine on a claimable job, for every draw: tables, provider and outcome as SendEmailTask promises them, by statuses |
| `Draws.SettledCall` | services/worker/tasks/send.py:155-164 | on a settled or missing job it reports so and touches nothing |
| `Draws.InterruptionsSpelled` | services/worker/main.py:67-90 | what a crash, an unexpected exception and a lost reply leave: nothing, the committed claim, and a transient error to record |
| `Draws.JobsComeAndGo` | services/api/routers/campaigns.py:230-254 | a job starts queued with nothing recorded, and is cancelled exactly while it is queued |
| `AcceptedJobs.AcceptedIsAccountedFor` | services/worker/main.py:67-90 | transaction level, every reachable state: an accepted key belongs to a job that exists and is sent, claimable or cancelled; it has not failed for good |
| `AcceptedJobs.AcceptedIsRecoverable` | services/worker/tasks/send.py:187-217 | transaction level: while such a job is claimable, one more undisturbed call records it with the id and time of the first acceptance and creates no message, whatever the provider would draw |
| `AcceptedJobs.FailedYetAcceptedIff` | packages/shared/job_store.py:82-87 | statement level, every run: a job ends `failed_permanent` with its key accepted if and only if at some step a refusal is recorded on a `sending` row whose key is accepted, or the key of a failed job is put |
| `AcceptedJobs.AloneNeverContradicts` | services/worker/tasks/send.py:154-217 | statement level, every run: a job of which no two executions are ever in flight together never ends `failed_permanent` with its key accepted, whoever crashes, aborts or times out |
| `AcceptedJobs.FailedYetAccepted` | packages/shared/job_store.py:82-87 | statement level: a concrete run of two executions in which the provider accepts one and refuses the other, and the refusal is recorded |
| `ProviderWiring.EachCountsItsOwn` | packages/shared/providers/fake.py:140-197 | for every wiring and run: each provider object reports no duplicate, and what it counts are exactly the messages created through it |
| `ProviderWiring.SharedIsTheSendMachine` | services/worker/main.py:67-90 | with one object for all calls the deployment is the send machine, state by state |
| `ProviderWiring.SharedNeverDuplicates` | packages/shared/providers/base.py:122-132 | with one object for all calls one message is created per key, at either granularity |
| `ProviderWiring.OneMessageAKeyIff` | services/worker/main.py:50-90 | transaction level, every wiring and run: messages created equal distinct keys if and only if no call that creates one had looked its key up, in vain, after another call had got it accepted |
| `ProviderWiring.OneMessageUnlessInterrupted` | services/worker/main.py:67-90 | transaction level, every wiring: if no call is crashed, aborted or timed out between acceptance and record, one message per key |
| `ProviderWiring.FreshCallCreates` | services/worker/main.py:50-64 | a call on a claimable job whose own object does not know the key creates a message, whatever other objects know |
| `ProviderWiring.CrashAndRetrySendsTwice` | services/worker/main.py:50-64 | a concrete run with an object per call: crash after acceptance, retry, two messages for one key |
| `SendSafety.ReachableInv` | services/worker/tasks/send.py:11-39 | the inductive invariant of the send at either granularity |
| `SendSafety.NextCore` | services/worker/tasks/send.py:154-217 | every statement, crash, webhook and cancellation keeps it |
| `Pipeline.TaskJobAgreement` | services/worker/main.py:67-90 | transaction level, every reachable state: the job of a succeeded queue row has settled, the job of a failed one failed for good or never existed |
| `Pipeline.AcceptedNeverLost` | packages/durable/worker.py:149-180 | transaction level, every reachable state: every accepted key has a job that is sent, claimable or cancelled; a settled queue row whose key is accepted is not `failed`, and if succeeded its job is sent or cancelled |
| `Pipeline.NothingLostNothingTwice` | packages/durable/worker.py:149-180 | transaction level, every settled queue row: messages created are keys accepted; a sent job carries the accepted id and time; if its key is accepted, the job exists and is sent or cancelled unless the row is a dead letter or cancelled; if not, the job is absent, failed for good or cancelled with the same exception |
| `EndToEnd.LaunchedJobsEndAccountedFor` | packages/durable/worker.py:123-194 | after any run of the pipeline in which only launches enqueue, a launch and more dispatch turns than policy and reaps pay for: each launched job has exactly one task, it is settled, messages created are keys accepted, and the job is sent under the accepted id and time, or failed for good and never accepted, or cancelled, or its task is a dead letter or cancelled |
| `Pipeline.RunProjects` | packages/durable/worker.py:149-166 | every run of queue and sender together is a run of each, so their results apply |
| `SendTask.SendEmailTask` | services/worker/tasks/send.py:140-217 | which of the three phases run on which inputs, the resulting tables, provider and outcome in every case, and how far it got when killed before, between or after the phases |
| `SendTask.SendAndRecord` | services/worker/tasks/send.py:169-217 | phases 2 and 3 on a claimed job: what is recorded for a replay, an acceptance, an invalid recipient and a transient error, and what is left when killed between them |
| `SendTask.HandleSendEmail` | services/worker/main.py:67-90 | a worker killed at any phase leaves the tables as they were; killed after the provider answered, the acceptance stands and the job can be claimed again; a committed success is recorded under the accepted id |
| `JobStore.StatementsFollowTheTable` | packages/shared/transitions.py:102-115 | each update of send_status, on any row, stutters or takes an edge of the table |
| `JobStore.SqlJobStore.Claim` | packages/shared/job_store.py:29-48 | claims exactly the rows in the three claimable statuses, and says so |
| `JobStore.SqlJobStore.MarkAsSent` | packages/shared/job_store.py:50-73 | records a job that is `sending`, adopts every unowned event of the message and counts them; otherwise neither |
| `JobStore.SqlJobStore.MarkTransient` | packages/shared/job_store.py:75-80 | moves a `sending` row to `failed_transient`, nothing else |
| `JobStore.SqlJobStore.MarkPermanent` | packages/shared/job_store.py:82-87 | moves a `sending` row to `failed_permanent`, nothing else |
| `Transitions.TerminalIffNoSuccessor` | packages/shared/transitions.py:95-115 | SEND_TERMINAL is exactly the set of statuses no edge of the table leaves |
| `FakeProvider.FakeEmailProvider.CachePut` | packages/shared/providers/fake.py:91-96 | put-if-absent: true exactly for the creator, and an entry is never replaced |
| `FakeProvider.FakeEmailProvider.Send` | packages/shared/providers/fake.py:140-197 | every case of send(), with a rival getting through during the latency or not; the answer is the cached entry and sends minus keys never changes |
| `FakeProvider.Compose` | packages/shared/providers/fake.py:213-238 | the events of each fate, in order |
| `FakeProvider.StoryByCases` | packages/shared/providers/fake.py:213-238 | the eight ways a message can go, with their events in order and the status they should leave |
| `FakeProvider.DeliverOutcome` | packages/shared/providers/fake.py:207-252 | swapping neighbours and repeating events leaves the set of emitted events what the fate says |
| `OutcomeConvergence.EmittedAreTheStory` | packages/shared/providers/fake.py:247-266 | the events emitted for a fate carry exactly the ids of its story, whatever was swapped or repeated |
| `OutcomeConvergence.FateDecidesIff` | packages/shared/providers/fake.py:207-252 | in whatever order and multiplicity the events of a fate arrive, mixed with webhooks of other messages and redelivery of stored ones, and whatever had arrived before: the job ends at the status of its fate with each engagement counted once if and only if no engagement and no event carrying the verdict had been left unapplied |
| `OutcomeConvergence.FateDecides` | packages/shared/providers/fake.py:187-193 | in particular when `sent` was emitted before send() returned, adopted by the record and never applied |
| `OutcomeConvergence.FateShownInEveryState` | services/api/webhooks/processor.py:41-118 | the same equivalence in every reachable state of the send machine, however ingestion, processing, sweeps, records and crashes were interleaved |
| `Webhooks.ProcessOneEvent` | services/api/webhooks/processor.py:41-67 | the new tables and the answer for unknown, already processed, orphaned and applied events |
| `Webhooks.ApplyDeliveryStatus` | services/api/webhooks/processor.py:77-97 | only a higher rank is written; `sent` writes nothing |
| `Webhooks.ApplyEngagement` | services/api/webhooks/processor.py:100-118 | one more row, one more count, and the first timestamp only once |
| `Webhooks.KindsByName` | services/api/webhooks/processor.py:70-118 | what one event of each kind leaves in the columns of its job |
| `Webhooks.ProcessCases` | services/api/webhooks/processor.py:41-67 | processed, unowned and owned events: which rows of the three tables change, and how |
| `Webhooks.ProcessKeepsIdentity` | services/api/webhooks/processor.py:41-118 | processing touches only jobs with a message id, only their delivery side, and keeps message ids unique |
| `Webhooks.IngestWebhook` | services/api/webhooks/ingest.py:43-94 | known events are not stored again; every other id is stored once, as it was first named, unowned and unprocessed; the ids passed on are exactly those, in the order of their first occurrence in the request |
| `Webhooks.ProcessInserted` | services/api/webhooks/ingest.py:107-119 | the background step processes the ids in order, each event once; one that fails is rolled back alone and stays as it was, the others take effect |
| `Webhooks.SweepOnce` | services/api/webhooks/sweeper.py:37-59 | goes once over the unowned, unprocessed events; resolved plus remaining is their number |
| `Webhooks.SweepEvent` | services/api/webhooks/sweeper.py:47-56 | one event: abandoned without being resolved when older than 24 hours, processed again otherwise |
| `Webhooks.SweepResolvesTheOwned` | services/api/webhooks/sweeper.py:46-59 | the reported number is that of the orphans that were young enough and owned by a job when the sweep began |
| `Webhooks.SecondSweepResolvesNothing` | services/api/webhooks/sweeper.py:37-59 | after a sweep no unowned, unprocessed event has a job, and an immediate second sweep resolves none |
| `Convergence.ProcessKeepsAgreement` | services/api/webhooks/processor.py:41-118 | processing any event keeps the cached columns in agreement with the log |
| `Convergence.SweepKeepsAgreement` | services/api/webhooks/sweeper.py:46-56 | so does sweeping it, abandoned or not |
| `Convergence.RedeliveryIsInvisible` | services/api/webhooks/ingest.py:43-49 | arrivals of events already stored leave no trace: the tables are those of the new arrivals alone |
| `Convergence.CountsAreDistinctIds` | services/api/webhooks/processor.py:100-118 | after any sequence of arrivals, redelivery included, the counts are the distinct newly opened and clicked ids on top of what was there |
| `Convergence.DeliveryIsHighest` | packages/shared/transitions.py:138-144 | and the delivery status is the highest-ranked one among what was recorded and what newly arrived |
| `Convergence.WebhooksConverge` | services/api/webhooks/ingest.py:43-94 | order, duplication and redelivery of arrivals cannot be seen in the job |
| `Convergence.AppliedMessageShowsItsLog` | services/api/webhooks/processor.py:41-118 | once all stored events of a message are applied, by any interleaving, the job shows exactly those |
| `EarlyEvents.RecordAdopts` | packages/shared/job_store.py:64-73 | a record that takes effect adopts every orphan of its message without applying it |
| `EarlyEvents.AdoptedAppliedIffProcessed` | services/api/webhooks/sweeper.py:39-43 | no sweep, statement or other event of any later run applies an adopted event; only processing it directly does |
| `EarlyEvents.EarlyAppliedIff` | services/api/webhooks/processor.py:50-67 | every run from the arrival of an event ahead of its record: it is applied at the end if and only if it is processed directly at a moment when its message is recorded and no sweep has given it up |
| `EarlyEvents.ProcessedOnceAppliedIff` | services/api/webhooks/ingest.py:107-119 | when it is processed directly once, as the endpoint does, it is applied if and only if the record was there by then |
| `EarlyEvents.AdoptedNeverApplied` | packages/shared/job_store.py:64-73 | a concrete run: the delivery report is processed before the record, adopted by it and passed by the sweep; the job is never shown as delivered |
| `TaskQueue.DelayInRange` | packages/durable/queue.py:80-88 | a delay is never negative nor above the cap, whatever the draw |
| `TaskQueue.BackoffGrows` | packages/durable/queue.py:80-88 | the bound starts at the initial delay, never shrinks from attempt to attempt, and is the delay when jitter is off |
| `TaskQueue.BackoffMultiplies` | packages/durable/queue.py:80-88 | from one attempt to the next the bound is the multiplier times the last, or the cap |
| `TaskQueue.JitterIsEven` | packages/durable/queue.py:80-88 | with full jitter the delay runs evenly from 0 to the bound as the draw does from 0 to 1; without, it is the bound |
| `TaskQueue.SelectDue` | packages/durable/queue.py:185-193 | distinct pending, unlocked rows of the queue whose run_after has come, as many as there are up to the limit; a due row left behind has a later run_after than every row taken, or the same and no earlier created_at |
| `TaskQueue.SelectionsAgreeUpToTies` | packages/durable/queue.py:190-192 | that determines the claimed rows up to ties in run_after and created_at |
| `ClaimLocks.ClaimsNeverCollide` | packages/durable/queue.py:176-195 | claims that lock, then commit or roll back, in any interleaving with each other and with writes to unlocked rows: open claims share no row, their rows stay pending, and no commit touches a row of another |
| `ClaimLocks.CommitIsOneDequeue` | packages/durable/queue.py:176-195 | a commit is one claim step of the queue machine, with leases counted from the claim: of the rows that were due and unheld when the claim ran and are unchanged since, none left behind is earlier by run_after, or by created_at at the same run_after, than one taken |
| `ClaimLocks.RunIsQueueRun` | packages/durable/queue.py:176-195 | refinement: whatever the transactions interleave, table and executions go through a run of the queue machine |
| `TaskQueue.TaskTable.Dequeue` | packages/durable/queue.py:178-195 | leases exactly such rows, the earliest run_after and created_at first, to the owner for the lease time, one attempt more each, and no other column or row |
| `TaskQueue.TaskTable.Heartbeat` | packages/durable/queue.py:200-206 | extends the lease exactly for its holder and says whether it did |
| `TaskQueue.TaskTable.ReapExpired` | packages/durable/queue.py:209-218 | returns exactly the expired leases to pending, keeping an older error, and counts them |
| `TaskQueue.TaskTable.Complete` | packages/durable/queue.py:220-225 | completes only for the holder |
| `TaskQueue.TaskTable.RetryLater` | packages/durable/queue.py:230-240 | reschedules only for the holder, after the delay |
| `TaskQueue.TaskTable.Kill` | packages/durable/queue.py:244-250 | kills only for the holder, with the status given |
| `TaskQueue.TaskTable.CancelPendingChildren` | packages/durable/queue.py:264-269 | cancels exactly the pending children of a parent |
| `TaskQueue.TaskTable.EnqueueTask` | packages/shared/enqueue.py:35-54 | inserts unless the key is used; keys stay unique; afterwards some row has the key |
| `Worker.DurableWorker.DispatchBatch` | packages/durable/worker.py:123-147 | what is claimed is in flight, with the attempt numbers the claim gave out |
| `Worker.DurableWorker.RunOne` | packages/durable/worker.py:149-166 | the one statement each outcome leads to, by statuses, errors and due time, for registered and unregistered types; only the holder's row changes |
| `Worker.DurableWorker.RetryOrKill` | packages/durable/worker.py:168-180 | dead exactly from the last attempt of the policy on, rescheduled by its delay before |
| `Worker.DurableWorker.ReapOnce` | packages/durable/worker.py:227-237 | returns every expired lease to pending and reports how many |
| `Worker.FinishRowEffect` | packages/durable/worker.py:149-194 | the last statement of an execution writes nothing without the lease; with it, it releases the row to pending exactly when it retries, and otherwise settles it in the way its outcome allows |
| `QueueMachine.FinishSpelled` | packages/durable/worker.py:149-194 | the same for the last step of an execution in the queue machine |
| `QueueMachine.HeartbeatSpelled` | packages/durable/queue.py:200-206 | a heartbeat of the machine prolongs the lease of its holder from now, and nothing else |
| `QueueMachine.SweepsSpelled` | packages/durable/queue.py:209-218 | a reap of the machine returns exactly the leases that have run out, and cancelling children takes exactly the pending ones |
| `QueueMachine.AttemptAccounting` | packages/durable/queue.py:178-250 | in every reachable state attempt is retries applied plus reaps plus one while an attempt is open or spent; executions of a row have distinct attempts; retries stay within the policy and attempts within that plus reaps |
| `QueueMachine.ReachableAccounted` | packages/durable/worker.py:168-180 | the inductive invariant behind it holds in every reachable state |
| `Leases.OneLiveLease` | packages/durable/queue.py:178-206 | if no owner re-leases a row it is still working on, at most one unfinished execution of a row has an unexpired lease |
| `Leases.ReleasedIsFenced` | packages/durable/queue.py:197-250 | under the same condition an execution whose row was leased again can change nothing by heartbeat, completion, retry or kill |
| `Leases.FenceHoldsIffOwnerFresh` | packages/durable/queue.py:204-223 | a claim fences off all earlier unfinished executions of its rows if and only if none runs under the claiming owner's name |
| `Leases.SameOwnerDefeatsFence` | packages/durable/queue.py:220-225 | a concrete run in which a stale execution completes the row its worker has leased again |
| `Termination.TaskChangesBounded` | packages/durable/worker.py:168-180 | in any run the status of a row changes at most twice per attempt of the policy plus twice per reap |
| `Termination.SettledForever` | packages/durable/queue.py:48-61 | succeeded, failed, cancelled and dead rows are never written again |
| `Settling.EveryLoopSettles` | packages/durable/worker.py:149-180 | any run from a reachable state, cut into turns that each change the status of one of the rows unless all are settled: with at most r reaps of them, more than 2 (policy + 1) turns a row plus 2 r leave all of them settled |
| `Settling.DispatchTurnMoves` | packages/durable/worker.py:123-147 | a wait for leases and backoffs, a reap, a claim of a batch, and then anything at all except an enqueue, changes the status of one of the rows of the queue unless all are settled |
| `Settling.DispatchLoopSettles` | packages/durable/worker.py:123-194 | so the dispatch loop settles its whole queue within that bound, whatever handlers return, whoever crashes or hangs, and whatever stale executions write |
| `Termination.LoopSettlesEverything` | packages/durable/worker.py:123-194 | no dead end: whatever the handlers do, from every state that satisfies the accounting invariant some schedule of claims and runs settles all rows |
| `Termination.NoLeaseBeforeBackoff` | packages/durable/queue.py:227-240 | after a retry no statement of any run leases the row before its delay is over |
| `Fanout.InsertJobs` | services/api/routers/campaigns.py:230-254 | exactly one queued job per recipient that renders, in order, old jobs untouched |
| `Fanout.RenderableIsChosen` | services/api/routers/campaigns.py:230-254 | those are all the recipients that render, in their order |
| `Fanout.EnqueueJobs` | services/api/routers/campaigns.py:256-265 | the loop inserts row by row, skipping used keys; if keys were unique they still are, and every job has exactly one row |
| `Fanout.PassIsARun` | services/api/routers/campaigns.py:257-265 | a pass, however far it got, is a sequence of inserts of the queue machine |
| `Fanout.PassesAreIdempotent` | packages/shared/enqueue.py:35-54 | a full pass leaves exactly one row per job and older rows untouched, and any further pass, full or partial, changes nothing |
| `Fanout.FanOutOnce` | packages/durable/queue.py:252-259 | with passes repeated, abandoned and interleaved with anything workers do, no job has two rows, a job once enqueued has exactly one, and rows are never lost |
| `Fanout.PassFansOutOnce` | services/api/routers/campaigns.py:256-265 | a full pass of the endpoint with any run before and any after it: each of its jobs has exactly one row in the end |
| `Fanout.OneTaskPerJob` | services/api/routers/campaigns.py:257-265 | when rows come from launches alone, no two rows of any run carry the same job |
| `Cancellation.CancelCampaign` | services/api/routers/campaigns.py:308-312 | exactly the queued jobs of the campaign become cancelled, every other row is as it was |
| `Cancellation.CancelIsARun` | services/api/routers/campaigns.py:308-312 | at either granularity, whenever the UPDATE can have its row locks, it is a run of single-row cancellations of the send machine |
| `Cancellation.CancelCampaignRecalls` | services/api/routers/campaigns.py:277-312 | the queued jobs of the campaign stay cancelled in every later run and are accepted later if and only if they already were, which at statement level they were not; no other job changes |
| `Progress.SumWhere` | services/api/routers/campaigns.py:343-353 | a filtered sum over the groups is the number of jobs that satisfy the filter |
| `Progress.GetProgress` | services/api/routers/campaigns.py:336-361 | each reported number counts the jobs it is named for |
| `Progress.ProgressSpelled` | services/api/routers/campaigns.py:343-353 | each of the eight numbers by the column and values it counts |
| `Progress.ColumnsAddUp` | services/api/routers/campaigns.py:345-353 | attempted, sending, retrying and queued add up to the total |
| `Progress.ReportedWithinAttempted` | services/api/routers/campaigns.py:346-353 | delivered plus bounced plus complained is at most attempted in every reachable state |
| `Progress.ProgressIsMonotone` | services/api/routers/campaigns.py:345-353 | attempted, total, failed_permanent, complained and the settled deliveries never go down along a run |
| `Analytics.CampaignRow` | services/api/routers/analytics.py:77-100 | five passes over a campaign's rows count its sent, delivered, bounced, opened and clicked jobs |
| `Analytics.StatsSpelled` | services/api/routers/analytics.py:77-100 | each number by the column it counts, and each rate by what it divides |
| `Analytics.RateSpelled` | services/api/routers/analytics.py:100-102 | a rate times the whole is a hundred times the part, and 0 of nothing |
| `Analytics.RatesArePercentages` | services/api/routers/analytics.py:77-100 | in every reachable state they lie in 0..100, delivered and bounced together within sent |
| `Analytics.AllCampaigns` | services/api/routers/analytics.py:62-100 | the running totals are the counts over the jobs of all campaigns |
| `Analytics.TotalsSpelled` | services/api/routers/analytics.py:89-135 | the totals and overall rates by the columns they count |
| `Analytics.TotalRatesArePercentages` | services/api/routers/analytics.py:123-129 | the overall rates are percentages in every reachable state |
| `Analytics.DomainTotals` | services/api/routers/analytics.py:110-118 | one bucket per domain that occurs, counting its rows |
| `Analytics.TallySpelled` | services/api/routers/analytics.py:110-118 | each bucket by the columns it counts, one for exactly the domains that occur |
| `Analytics.DomainSpelled` | services/api/routers/analytics.py:115 | the domain is what follows the last at sign, in lower case, and unknown without one |
| `Analytics.RankDomains` | services/api/routers/analytics.py:120-126 | every bucket once, the largest first |
| `Analytics.DomainsAddUp` | services/api/routers/analytics.py:110-126 | the buckets sum to the number of rows, of delivered rows and of bounced rows, and bounce rates are percentages |
| `Analytics.DomainsMatchCampaigns` | services/api/routers/analytics.py:62-126 | the domain half of the report adds up to the delivered and bounced messages of the campaign half; to its sent messages if and only if every row is sent or failed for good, and never to less |
| `Analytics.QueuedCountsAsSent` | services/api/routers/analytics.py:110-118 | a concrete input: one queued job is one message sent in the domain half and none in the campaign half |
| `RateLimit.InMemoryTokenBucket.Check` | packages/shared/rate_limit.py:83-97 | allowed exactly if what was left plus the elapsed time times the refill, up to the capacity, covers the request, a missing key counting as full; what remains is stored with the time; other keys untouched; tokens stay within 0 and capacity |
| `RateLimit.RedisTokenBucket.Check` | packages/shared/rate_limit.py:34-64 | the script decides the same by the same numbers, starting full when the key is gone |
| `RateLimit.ConsumeInNumbers` | packages/shared/rate_limit.py:48-58 | one check-and-consume on any bucket, in numbers |
| `RateLimit.Conservation` | packages/shared/rate_limit.py:51-58 | tokens granted plus tokens left never exceed what was there plus the refill rate times the time the clock went forward, over any calls and clock |
| `RateLimit.GrantBound` | packages/shared/rate_limit.py:83-97 | any stretch of calls is granted at most the capacity plus the refill rate times the forward steps of the clock |
| `RateLimit.BackwardEarnsNothing` | packages/shared/rate_limit.py:51 | a clock that never goes forward earns nothing |
| `RateLimit.GrantBoundMonotone` | packages/shared/rate_limit.py:83-97 | for a clock that does not go back, capacity plus refill times elapsed |
| `RateLimit.DeniedCallsCostNothing` | packages/shared/rate_limit.py:86-97 | leaving out any subset of the denied calls changes no other answer |
| `RateLimit.ExpiryIsUnobservable` | packages/shared/rate_limit.py:42-63 | if a bucket refills within its time to live, expiry, whenever it strikes, changes no answer; the two implementations then agree on every trace |
| `FieldKeys.SanitizedIsVariableName` | services/api/routers/groups.py:32-37 | every sanitised header is a legal template variable name |
| `FieldKeys.SanitizeIdempotent` | services/api/routers/groups.py:32-37 | sanitising is idempotent on all strings |
| `FieldKeys.SanitizeSpelled` | services/api/routers/groups.py:32-37 | an ASCII header letter by letter: what surrounds its first and last letter or digit goes, letters become lower case, anything else an underscore, and an underscore goes in front of a digit or of nothing |
| `FieldKeys.StripTakesTheEnds` | services/api/routers/groups.py:33-34 | a strip takes off both ends and nothing of what they enclose |
| `FieldKeys.AsciiSpaces` | services/api/routers/groups.py:33 | which ASCII characters are whitespace |
| `BulkImport.CollisionIff` | services/api/routers/groups.py:215-224 | a row is rejected as ambiguous exactly when two sanitised headers coincide |
| `BulkImport.CollisionIsFirst` | services/api/routers/groups.py:215-224 | the key reported is that of the first column whose name an earlier one has |
| `BulkImport.Scan` | services/api/routers/groups.py:215-224 | the scan loop finds the first such key |
| `BulkImport.ParseOne` | services/api/routers/groups.py:200-238 | the body of the loop computes the verdict on a row |
| `BulkImport.RowVerdict` | services/api/routers/groups.py:200-231 | by the cell under the e-mail column, empty if there is none: a row is skipped as missing exactly if its stripped text is empty, as invalid exactly if that text is not accepted, as ambiguous exactly if two other cells share a sanitised header, and otherwise taken under the accepted address |
| `BulkImport.AcceptedRowLosesNothing` | services/api/routers/groups.py:209-238 | a row that is taken has one field per cell other than e-mail and name, with its value, under its sanitised header, a legal name; its name is the stripped text under the name column, if any |
| `BulkImport.RowsAreConserved` | services/api/routers/groups.py:195-238 | every row is in exactly one of skipped and parsed, at its index, in the order of the request |
| `BulkImport.ParseAll` | services/api/routers/groups.py:195-238 | the parsing loop computes those two lists |
| `BulkImport.MergeKeepsLast` | services/api/routers/groups.py:260-262 | per address the entry is its last accepted row |
| `BulkImport.MergeOrder` | services/api/routers/groups.py:260-264 | each accepted address is upserted exactly once |
| `ContactBook.ImportMeetsSpec` | services/api/routers/groups.py:247-295 | the last row of an address alone decides: old fields overridden by its fields, name only if given, id, suppression and unsubscription untouched, new contacts unsuppressed, others as before, membership grown by exactly the contacts named |
| `ContactBook.ImportIdempotent` | services/api/routers/groups.py:247-295 | importing the same rows again changes nothing |
| `ContactBook.CreatedPlusUpdated` | services/api/routers/groups.py:253-280 | created plus updated is the number of distinct accepted addresses, and a repeat creates none |
| `ContactBook.MergeRows` | services/api/routers/groups.py:260-262 | the loop keeps one entry per address, in order of first appearance |
| `ContactBook.ContactStore.UpsertOne` | services/api/routers/groups.py:265-280 | creates the contact under the next id, or overrides fields and perhaps the name of the known one, and returns its id |
| `ContactBook.ContactStore.UpsertBatch` | services/api/routers/groups.py:264-280 | the loop against the contacts looked up before it applies every entry; created counts the unknown addresses, updated the known ones, and the ids touched are theirs |
| `ContactBook.ContactStore.AddMembers` | services/api/routers/groups.py:282-294 | the group becomes the union with the touched contacts |
| `ContactBook.ContactStore.BulkImport` | services/api/routers/groups.py:191-301 | the whole endpoint: the row cap, the empty case, the resulting contacts and members, and every number reported |

## Left out

* Authentication, tenancy, roles, audit log, HTTP and the event stream: plumbing and one-line guards.
* The web application, migrations, configuration, the machine-learning and language-model parts.
* Template rendering, preflight and e-mail address validation: library behaviour; rendering is a predicate on
  recipients and validation a function from the stripped text to the accepted address.
* Columns nothing decides on: `email_jobs.attempt`, `claimed_by`, `claimed_at`, `last_error`, subject and bodies,
  `updated_at` everywhere, `tasks.max_attempts` (the worker uses its policy instead).
* Campaign status: launch and cancel write it without a guard, so nothing about it survives concurrency.
* A failure while resolving the sending identity: in the machine it is an `Abort` before the claim.
* Concurrent reads and writes inside `process_one_event`: it is one atomic step, because its rank test and its
  update are separate statements and races between two of them are not guarded against.
* Deadlines of the sweep: one `now` per pass, where the code reads the clock per event.
* The order in which Postgres returns claimed rows, and the order of domain buckets of equal size.
* Rounding of rates to one decimal, and Redis cutting the token count of its reply to an integer: numbers are
  exact reals.
* Lower-casing beyond what an ASCII reader can see: other characters become underscores either way.
* Serialisation of interleaved transactions other than through the row lock of a job, and reads by other
  transactions between a claim and its commit.
* SendMachine.Next: cancels job by job, which is finer than the endpoint's single UPDATE; `CancelIsARun` relates them.
* Webhooks.SweepOnce: requires unique message ids, which the column's constraint guarantees.
* Termination.LoopSettlesEverything: one schedule among many, picked to show that no state is a dead end; every
  schedule of the dispatch loop is covered by `DispatchLoopSettles`, relative to the number of reaps, since a worker
  that crashes in every turn keeps its row going for ever.
* ProviderWiring.OneMessageAKeyIff: transaction level, which is how `main.py` commits; with durable calls two
  executions can also look up side by side, and there only `SharedNeverDuplicates` is claimed.
* ClaimLocks.ClaimsNeverCollide: on values, like the other machines; a statement that waits for a lock is one that
  runs later, and its guards are then evaluated on the row as committed.
* EndToEnd.LaunchedJobsEndAccountedFor: transaction level with one shared provider, and relative to the number of reaps.
