# Ticketflow's durable execution, in Dafny

Ticketflow runs customer-support tickets as durable workflows on one Postgres database: a task
queue with leases, a ticket graph whose state is checkpointed, a runner that leases runs and resumes
the graph, workers that deliver each task at least once, and ledgers that keep an effect from
happening twice. This project models those parts and proves what they promise under every
interleaving of runners, workers, crashes, expired leases, repeated deliveries, timers, janitors,
retention and human decisions.

## How the model is built

**The engine** (`Engine.dfy`) is one ticket's rows in every table, the processes working on that
ticket, and the steps they take. One step is one committed transaction, one read, or one checkpoint
write, with the SQL `WHERE` as its guard; a step whose guard fails changes nothing. The Python code
between two commits is an actor with a program counter, and `Crash` drops an actor at any point.
`After(Fresh(id), steps)` is the ticket after a run, and the guarantees are about every list of steps.
No clock order is assumed except where a theorem says so. `System.dfy` puts all tickets side by side.
The engine carries a history (`Log`: decisions accepted and applied, statuses held, the draft shown,
the first finalize payload). No step reads it, and the theorems in `Guarantees.dfy` translate it back
into which step did what.

**The programs** (`Store.dfy`, `Invocations.dfy`, `Runner.dfy`, `Worker.dfy`, `Api.dfy`,
`Maintenance.dfy`) are the repository's functions as methods over a `Database` object whose fields are
the tables, all tickets together. Each is proved against a function of the old contents, and each such
function is proved to be, ticket by ticket, a run of the engine's steps that leaves other tickets alone
(`Reachable.dfy`). What a runner's step makes of each thing it can find stored is spelled out row by
row in `Steps.dfy`, without the graph's own functions, and is part of the contract of `StepOnce`.
What a ticket is finalized with is compared with an independent verdict on its draft and decision
(`Verdicts.dfy`; over engine runs in `Gate.dfy`, over the ledgers in `Replies.dfy`).
`Programs.dfy` concludes: after any sequence of programs every ticket's rows are rows the engine
reaches, so the engine's guarantees are facts about the tables. `CarriedOut.dfy` shows the converse
for the longest path: a schedule that approves a refund and pays it. `Witnesses.dfy` holds the runs
that show where a promise of the documentation, or a guarantee without its premise, fails.

Every lemma carries `{:induction false}`: each proof does its own induction where it needs one, and
nothing rests on induction hypotheses the verifier would generate.

**Three smaller cores** stand beside it: queue rows with their delivery history (`Deliveries.dfy`,
tied to the engine by `EngineDeliveries.dfy`, with the limit on attempts in `AttemptLimits.dfy`), the token bucket and drain loop (`TokenBucket.dfy`),
and the migration runner (`Migrations.dfy`).

Assumed of LangGraph: an interrupted node runs again from its start; its n-th `interrupt()` returns
the n-th recorded resume; what a node commits to the queue is committed before the checkpoint that
follows; a resume that a node rejects raises and leaves the checkpoint as it was; an invocation acts
on the latest checkpoint and its write lands only on the checkpoint it ran from. Assumed of Postgres:
each transaction is atomic and transactions are serialised. A new ticket's id is fresh.

Times are integers, amounts and confidences are reals, and an agent call is any result of the right
type, a transient error or a permanent error. Fields a JSON round trip would rebuild are kept as typed
values. Keys are triples (ticket, stage, fallback); `KeyTextInjective` is why that is the same as the
stored text when ids hold no colon, which `uuid4().hex` never does.

## Where code and documentation part

The model follows the code.

- The repository's `README.md` (line 131) says that a second approval gets `409`. After an approval
  has been applied the projected status is still `awaiting_approval` and the first signal is consumed,
  so the API accepts another decision until finalization (`Approval.FurtherDecisionAccepted`,
  `CarriedOut.RefundIsCarriedOut`). If runners finish within their lease and the ticket's run has not
  been archived, that happens after approvals only (`Approval.RejectionIsLast`). A runner that outlives
  its lease can have another write `awaiting_approval` back over `rejected`, and a reconciler slower
  than retention can rebuild a row from a snapshot that still says so; either way a decision is
  accepted after a rejection (`Witnesses.LateRunnerReopens`, `Witnesses.SlowReconcilerReopens`). It is
  never applied (`Guarantees.FirstDecisionWins`).
- `create_run` (`db.py` 465-469) and `reconcile_orphaned_runs` say that the reconciler derives the same
  row as the API. That holds exactly when its snapshot was taken after the first dispatch was
  checkpointed (`Seeding.InsertsConfluent`; the API's own always is, `Seeding.ApiInsertsLate`). `Witnesses.EarlySnapshotHappens` is a run with an earlier
  snapshot; its row has no timer, and until the task is settled no run takes the ticket off the primary
  queue (`Witnesses.EarlySnapshotStrands`).
- `reclaim_expired` says that a crashed worker's attempt counts toward `max_attempts`. It is counted,
  but reclaiming lacks the guard `attempts < max_attempts` that `fail` has, and a lease that keeps
  running out is handed out any number of times (`Deliveries.AttemptsUnbounded`). A row's attempts stay
  within its limit up to the end of a run if and only if no `reclaim_expired` in it meets an expired
  lease of the row with `attempts >= max_attempts` that is then leased again
  (`AttemptLimits.LimitExactly`; of the engine, where the limit is three,
  `AttemptLimits.EngineLimitExactly`). The bound that always holds is `max_attempts` plus the reclaims.
- The repository's `README.md` (line 18) says the system survives crashes. A process that dies between
  two checkpoints of one invocation leaves a thread without an interrupt, which no runner ever resumes
  (`Stranded.HaltedForGood`; `Witnesses.CrashStrands` is such a crash while a ticket is created). A
  runner that dies between a redispatch and the checkpoint after it leaves a thread parked on the
  cancelled task: the next step escalates the ticket although its fallback is queued
  (`Steps.StepAfterLostRedispatch`).
- Retention that crashes between archiving a run and deleting its thread lets the reconciler rebuild
  the run (`Witnesses.ArchivedRunRebuilt`). Every later archive pass that reaches the rebuilt run fails
  as a whole, for all tickets (`Maintenance.RunRetention` changes nothing then,
  `Maintenance.ClashExactly` says when).

## Model

| member | source | states |
|---|---|---|
| Models.KeyTextInjective | src/ticketflow/graph.py:184-233 | Two keys of colon-free ticket ids are stored as the same text only if they are the same key |
| Guarantees.NoRefundWithoutApproval | src/ticketflow/graph.py:343-422 | In every run, a refund row implies an accepted decision with `approved = true` for the ticket, and its amount is that of the draft shown to the approver before that decision; pruning, crashes and stale runners included |
| Guarantees.FirstDecisionWins | src/ticketflow/db.py:587-633 | Given that a checkpoint write lands only on the checkpoint it ran from: in every run a decision the graph carries is the only one any step applied, and the earliest the API accepted, leases outlived or not |
| Guarantees.AppliedLogged | src/ticketflow/graph.py:359-385 | The decisions the log calls applied are those of the steps that wrote the checkpoint after `await_approval` |
| Guarantees.OneUnconsumedSignal | src/ticketflow/db.py:606-621 | No ticket ever has two unconsumed approval signals |
| Guarantees.StatusNeverRegresses | src/ticketflow/graph.py:461-491 | A ticket's status never falls below one it had, and a terminal one never changes |
| Guarantees.ProjectionLags | src/ticketflow/runner.py:243-323 | The run row's status is one the checkpoint has had and is never ahead of it |
| Guarantees.AtMostSixResumes | src/ticketflow/graph.py:235-442 | At most six resumes are ever taken by a ticket's nodes |
| SafetySteps.NodeKeepsShape | src/ticketflow/graph.py:272-491 | Every node outcome that does not raise keeps the checkpoint's shape, and a resume it takes lowers the measure |
| Guarantees.ExactlyOnce | src/ticketflow/side_effect_worker.py:57-68 | For the payload of any run of `execute` that dispatched: once a result is stored, refund, reply and result are those of one undisturbed delivery of it; finalize rows carry it; every delivery that gets to the end computes its result; pruning included |
| Guarantees.EffectsAreDispatched | src/ticketflow/graph.py:387-433 | No effect and no finalize row without such a dispatch; what is dispatched is `Gate.DispatchIsOwed` |
| Gate.DispatchIsOwed | src/ticketflow/graph.py:387-422 | In every run, each dispatched finalize payload is that owed for the draft the checkpoint holds and the one decision applied: approved, resolved with the draft's text; rejected, the rejection text; no decision, resolved exactly when the draft is reply-only with confidence at least 0.75, else the escalation text |
| Gate.GateExactly | src/ticketflow/graph.py:343-350 | In every run, each step past `decide_approval` goes to `prepare_approval` exactly when the draft refunds or its confidence is below 0.75, and to `execute` otherwise |
| Gate.MissingStateRaises | src/ticketflow/graph.py:306-367 | A node that finds state it asserts missing dispatches nothing and raises |
| Gate.AsksOnlyWhenDue | src/ticketflow/graph.py:352-385 | In every run, an approver is only asked about such a draft |
| Replies.ReplyIsOwed | src/ticketflow/ledger.py:41-66 | After any sequence of programs, a sent reply is the one owed for a draft the ticket's thread held and the accepted decision it carried on that draft, to the ticket's customer |
| Replies.ResultIsOwed | src/ticketflow/readmodel.py:11-29 | So is a stored result: status, text, model path, and a refund exactly when a refunding draft was approved |
| SideEffects.AnyInterleaving | src/ticketflow/side_effect_worker.py:36-68 | Any number of overlapping, crashing deliveries of one payload: same effects as one, and every finished delivery computes the same result |
| SideEffects.StoresWhatItRead | src/ticketflow/side_effect_worker.py:57-68 | The stored `refund_executed` is what the delivery read from the ledger |
| SideEffects.UndisturbedEffects | src/ticketflow/side_effect_worker.py:57-68 | What one delivery leaves: the refund iff resolved with a refund action, the reply, the result with `refund_executed` to match |
| Guarantees.AgreementAtEnd | src/ticketflow/graph.py:416-442 | A done finalize row, the stored result, the sent reply, the refund ledger and the finished graph's result agree |
| Guarantees.CausalOutbox | src/ticketflow/graph.py:184-318 | Without pruning: only the five keys, a draft row rests on exactly one done classification, a finalize row that is no escalation on exactly one done draft too |
| Guarantees.FallbackExcludesPrimary | src/ticketflow/graph.py:199-233 | Without pruning, a fallback row implies a permanently failed primary with no result |
| Guarantees.NoRunLost | src/ticketflow/db.py:339-375 | A ticket that ever had a run row has one, live or archived, after every run |
| Guarantees.EveryStepSpares | src/ticketflow/db.py:339-402 | No step deletes a pending or leased task, an unconsumed signal, a non-terminal run, an archived run or an effect |
| Replay.UnchangedExactlyWhen | src/ticketflow/graph.py:199-233 | Exactly when a node's queue transaction leaves every row as it is |
| Replay.ReplayAtOnce | src/ticketflow/graph.py:235-270 | Running any node again straight after its transaction changes no row |
| Replay.ReplayLater | src/ticketflow/graph.py:235-270 | However late the replay, a dispatch changes no row, and an await changes none exactly when its primary is not pending |
| Replay.RedispatchIsFinal | src/ticketflow/graph.py:199-233 | After a redispatch no replay of the node changes a row |
| RunLease.RunnersExclude | src/ticketflow/db.py:261-336 | If runners finish within their lease and retention spares rows that young, no two are between claim and save of one ticket |
| RunLease.SecondClaim | src/ticketflow/db.py:288-303 | While a runner is active, another claim succeeds exactly when the lease has run out and the run is due |
| Seeding.FixedUntilRun | src/ticketflow/runner.py:291-323 | While a ticket has no run row, a checkpoint parked at `await_classify` keeps its state |
| Seeding.InsertsConfluent | src/ticketflow/runner.py:291-323 | In every run: the API's pending insert and any other give the same row in either order iff the other's snapshot was read after the first dispatch |
| Seeding.ListsOrphansOnly | src/ticketflow/runner.py:306-318 | In every run the reconciler takes up only threads without a run row, and inserts what it then reads |
| Seeding.ApiInsertsLate | src/ticketflow/api.py:151-180 | In every run, what the API is about to insert is the status and timer the checkpoint has after the first dispatch |
| Witnesses.EarlySnapshotHappens | src/ticketflow/runner.py:306-318 | A run that leaves the API about to insert the timer and the reconciler about to insert none |
| Witnesses.EarlySnapshotStrands | src/ticketflow/runner.py:186-203 | The two inserts differ, and after the early one every continuation in which the classify task stays unsettled keeps the row without a timer, the checkpoint as it is and the task on the primary queue |
| Approval.FurtherDecisionAccepted | src/ticketflow/api.py:222-236 | A runner that applies a decision and saves undisturbed leaves the API open for a further one iff the decision was an approval |
| Approval.RejectionIsLast | src/ticketflow/db.py:405-445 | In every run in which runners finish within their lease, after a decision is applied and while the run is not archived, the API accepts a further one only if the first was an approval |
| Witnesses.LateRunnerReopens | src/ticketflow/runner.py:262-272 | A run with a runner past its lease, after which a decision is accepted although a rejection was applied |
| Witnesses.SlowReconcilerReopens | src/ticketflow/runner.py:306-318 | A run in which a stale snapshot is inserted after archiving, with the same outcome |
| System.EveryTicketRuns | src/ticketflow/runner.py:391-428 | In a run of the whole system each ticket goes through a run of its own steps |
| System.SerialsAreShared | src/ticketflow/taskqueue.py:22-47 | All tickets draw task and signal ids from common serials |
| System.BulkIsLocal | src/ticketflow/taskqueue.py:198-241 | Reclaim and prune over all tickets are, for each, that statement on its own rows |
| System.OthersSeeSerials | src/ticketflow/taskqueue.py:22-47 | A step on one ticket is to the others some serial numbers drawn |
| System.NoRefundAnywhereWithoutApproval | src/ticketflow/graph.py:343-422 | In a run of the whole system a refund follows a submission for that very ticket |
| System.ArchiveAllOrNothing | src/ticketflow/db.py:339-375 | The system's archive step moves every due run, or changes nothing if one of them is archived already; that the tables hand every ticket the same conflict is `Reachable.RetentionReaches` |
| Witnesses.ArchivedRunRebuilt | src/ticketflow/runner.py:357-363 | A run with a crash between archiving and thread deletion, after which the ticket has a run and an archived run and the new one ages into the next pass |
| Deliveries.AuditErases | src/ticketflow/taskqueue.py:138-241 | The queue with a delivery history beside each row is the queue itself |
| Deliveries.DeliveryAccounting | src/ticketflow/taskqueue.py:138-220 | Attempts are retries plus reclaims plus the current or settling delivery; lease, result and permanent columns agree with the status |
| Deliveries.RedeliverySpacing | src/ticketflow/taskqueue.py:171-190 | Successive leases start min(2^k, 30) s apart; with no reclaim the n-th starts 2^n - 2 s after the first |
| Deliveries.SettledIsFrozen | src/ticketflow/taskqueue.py:105-241 | A settled row is left alone by every statement but pruning, which removes it whole |
| Deliveries.FailureExactly | src/ticketflow/taskqueue.py:162-195 | A failure sends the leased row back, 2^attempts s later, exactly when an attempt is left and nothing is permanent, and the history counts it as seen; else it settles the row |
| Deliveries.TransientErrorsUseTheLimit | src/ticketflow/taskqueue.py:162-195 | For every limit, a task that only meets transient errors is delivered that many times, backed off, and then failed |
| Deliveries.AttemptsUnbounded | src/ticketflow/taskqueue.py:206-217 | For every n some run leases a task n times |
| AttemptLimits.StatementsOf | src/ticketflow/taskqueue.py:198-220 | Exactly the reclaim of an expired lease at the limit returns a row that has had all its deliveries; exactly a dequeue of a due row leases it |
| AttemptLimits.LimitExactly | src/ticketflow/taskqueue.py:162-220 | Over every run of queue statements a row's attempts pass its limit iff a lease that ran out at the limit is reclaimed and the same row leased again |
| AttemptLimits.EngineLimitExactly | src/ticketflow/db.py:210-246 | The same of every engine run, in terms of its janitor and worker steps |
| AttemptLimits.EngineLimitIsThree | src/ticketflow/taskqueue.py:11-50 | Every task an engine run inserts has the limit three |
| EngineDeliveries.RunIsQueueRun | src/ticketflow/taskqueue.py:11-241 | A ticket's task table after any engine run is where its queue statements lead |
| EngineDeliveries.EveryTaskAccounted | src/ticketflow/taskqueue.py:138-220 | Accounting, the bound 3 + reclaims, and the spacing hold of every task of every engine run |
| WorkflowRuns.OldestUnconsumed | src/ticketflow/runner.py:128-145 | The least unconsumed signal of the workflow, or that there is none |
| Store.Database.Enqueue | src/ticketflow/taskqueue.py:11-50 | Inserts a pending row unless the key exists; returns its id |
| Store.Database.CancelPending | src/ticketflow/taskqueue.py:105-118 | Fails a pending row for good, and says whether there was one |
| Store.Database.Dequeue | src/ticketflow/db.py:210-246 | Leases a due row that no due row precedes in `available_at`; none only if none is due |
| Store.LeasesTheDue | src/ticketflow/db.py:210-246 | Due and leased, column by column |
| Store.Database.Complete | src/ticketflow/taskqueue.py:138-159 | Settles the leased row with this id, and says whether there was one |
| Store.Database.Fail | src/ticketflow/taskqueue.py:162-195 | Column by column: pending again at now + 2^attempts, or failed with `available_at` kept; every other row stays; the status returned is the one the row is left with |
| Store.Database.ReclaimExpired | src/ticketflow/taskqueue.py:198-220 | Returns exactly the expired leases to pending and counts them |
| Store.Database.PruneSettled | src/ticketflow/taskqueue.py:223-241 | Deletes exactly the old settled rows and counts them |
| Store.Database.ClaimRun | src/ticketflow/db.py:261-309 | Leases a claimable run that no claimable run predates; none only if none is claimable |
| Store.ClaimsTheReady | src/ticketflow/db.py:261-309 | Claimable and claimed, column by column |
| Store.Database.ReclaimExpiredRuns | src/ticketflow/db.py:312-336 | Frees exactly the expired run leases and counts them |
| Store.Database.AddPendingSignalIfWaiting | src/ticketflow/db.py:587-633 | Accepts iff the run waits for approval and no signal is unconsumed; then inserts it and wakes the run |
| Store.Database.ArchiveTerminalRuns | src/ticketflow/db.py:339-375 | Moves exactly the old terminal runs, or fails as a whole on an id archived already |
| Store.Database.PruneConsumedSignals | src/ticketflow/db.py:378-402 | Deletes exactly the old consumed signals and counts them |
| Store.Database.RecordRefund | src/ticketflow/ledger.py:6-26 | Logs the attempt; records the refund only the first time, and says so |
| Store.Database.RecordSentReply | src/ticketflow/ledger.py:41-67 | Logs the attempt; records the reply only the first time, and says so |
| Store.Database.SaveResult | src/ticketflow/readmodel.py:11-29 | Upserts the result; loading it back gives it |
| Tables.TxnLocal | src/ticketflow/graph.py:128-233 | A node's transaction on all rows is, on its ticket's part, that transaction, and touches no other ticket's rows |
| Tables.SweepsLocal | src/ticketflow/taskqueue.py:198-241 | Reclaim and prune act on each ticket's part as on a table of its own |
| Tables.ResumeLocal | src/ticketflow/runner.py:120-203 | A runner's choice of resume depends on its ticket's rows alone |
| Tables.OthersSkipSerials | src/ticketflow/taskqueue.py:22-47 | If a transaction leaves the other tickets' rows alone, all it is to them is that task and signal serials it drew are gone |
| Invocations.RunTxn | src/ticketflow/graph.py:128-233 | The connection block of a node: enqueue, or cancel and enqueue the fallback, as one transaction |
| Invocations.Ainvoke | src/ticketflow/runner.py:274-275 | Runs nodes until one parks, ends or raises, as `Invoke` does; where that leads from each resume is in the rows of `Steps` |
| Invocations.InvokeInStep | src/ticketflow/runner.py:274-275 | An invocation is the engine's node runs, one after the other |
| Runner.StepOnce | src/ticketflow/runner.py:243-288 | Claims the oldest due run and makes of the tables what `Steps.StepDoes` says, or finds none due |
| Steps.StepDoes | src/ticketflow/runner.py:243-288 | What the `Steps` rows below say of each case, at once, and that a step touches nothing but the queue, the run rows, the signals and the threads |
| Steps.StepClassifies | src/ticketflow/graph.py:272-320 | A stored classification, primary or fallback, timer due or not, goes into the thread; the draft task is queued once, with its 30 s timer on thread and run row |
| Steps.StepDrafts | src/ticketflow/graph.py:322-357 | A stored draft goes to the approver with a 24 h timer exactly when it refunds or its confidence is below 0.75; else its finalize task is queued as owed |
| Steps.StepEscalates | src/ticketflow/runner.py:165-183 | A classify or draft task that failed for good, timer due or not, leaves thread and run row escalated and queues the finalize task with the escalation text |
| Steps.StepTurnsOver | src/ticketflow/graph.py:235-270 | Given nothing stored, the first due timer cancels a pending task, queues its fallback and parks on it; a task already taken it keeps waiting for, without a timer |
| Steps.StepRaisesOnTimer | src/ticketflow/graph.py:235-270 | A second timer raises: the thread stays and the run stays leased |
| Steps.StepAfterLostRedispatch | src/ticketflow/graph.py:199-233 | After a crash between a redispatch and its checkpoint the next step escalates, with the fallback queued |
| Steps.StepDecides | src/ticketflow/graph.py:359-385 | The oldest unconsumed decision is applied and consumed, and the finalize task queued as owed |
| Steps.StepGivesUp | src/ticketflow/graph.py:359-377 | A due timer with no decision escalates |
| Steps.StepEnds | src/ticketflow/graph.py:424-442 | The finalize result ends the thread and is its result; its status goes on the run row |
| Steps.StepRaisesOnResult | src/ticketflow/graph.py:434-436 | A failed finalize task, a timer or another ticket's result raises |
| Steps.StepWaits | src/ticketflow/runner.py:262-272 | With nothing stored and no timer the lease is given back and nothing else changes |
| Programs.AlwaysWaitsProperly | src/ticketflow/runner.py:105-117 | After any sequence of programs a parked thread is parked in one of the ways those rows speak of |
| CarriedOut.FallbackClassifies | src/ticketflow/graph.py:235-304 | An overdue classify task is cancelled for good, the fallback worker answers, and the next step carries its classification into the thread |
| CarriedOut.FallbackDrafts | src/ticketflow/graph.py:235-341 | Likewise a draft |
| Stranded.HaltedForGood | src/ticketflow/runner.py:105-117 | A thread left between two checkpoints by a crash is where it is after every continuation, or deleted |
| Witnesses.CrashStrands | src/ticketflow/api.py:151-180 | A crash while a ticket is created that leaves it so |
| Runner.SaveInStep | src/ticketflow/db.py:405-445 | Saving a run is the engine's save by the process that claimed it: status and timer written, lease released whoever holds it, signal consumed |
| Runner.StepInStep | src/ticketflow/runner.py:243-288 | The step is one engine process's run from claim to save |
| Runner.StepElsewhere | src/ticketflow/runner.py:243-288 | The step leaves every other ticket's rows alone |
| Worker.RunFinalize | src/ticketflow/side_effect_worker.py:36-68 | Refund, ledger read, reply and result in order; raises on another task type |
| Worker.FinalizesOwn | src/ticketflow/side_effect_worker.py:49-68 | It changes the ticket's own effect rows and no other's |
| Worker.FinalizeIsDelivery | src/ticketflow/side_effect_worker.py:57-68 | It is one undisturbed delivery |
| Worker.ProcessOneTask | src/ticketflow/agent_worker.py:79-146 | Leases the first due task, answers it, stores the answer, wakes the run iff that settled a leased row |
| Worker.WakeInStep | src/ticketflow/db.py:508-532 | Waking a run is the engine's wake |
| Worker.WorkInStep | src/ticketflow/agent_worker.py:79-146 | Handling a task is one engine process's run from lease to wake |
| Worker.WorkElsewhere | src/ticketflow/agent_worker.py:79-146 | Handling a task leaves every other ticket's rows alone |
| Api.CreateTicket | src/ticketflow/api.py:151-180 | Seeds the thread, runs it, inserts the run row |
| Api.CreatedTicket | src/ticketflow/api.py:151-180 | The new ticket is parked on a queued classify task with the schedule-to-start timer on its run row |
| Api.InsertInStep | src/ticketflow/db.py:448-479 | Inserting the run row is the engine's insert, and nothing if there is a row |
| Api.CreateInStep | src/ticketflow/api.py:151-180 | Creating a ticket is one engine process's run: seed, three nodes, insert |
| Api.SubmitApproval | src/ticketflow/api.py:222-236 | Accepts iff the ticket is open for a decision; a conflict changes no row |
| Api.OpenIsAccepts | src/ticketflow/db.py:605-621 | The tables are open for a decision iff the engine accepts one |
| Api.SubmitInStep | src/ticketflow/db.py:605-631 | An accepted submission is the engine's |
| Maintenance.ReconcileOrphanedRuns | src/ticketflow/runner.py:291-323 | Every materialised thread without a row gets the row its checkpoint shows, other rows stay, and the count is right |
| Maintenance.SecondPassIdle | src/ticketflow/runner.py:291-323 | A second pass finds nothing to rebuild |
| Maintenance.ReclaimExpiredLeases | src/ticketflow/runner.py:326-339 | Exactly the expired leases of tasks and of runs are released, each counted |
| Maintenance.RunRetention | src/ticketflow/runner.py:350-388 | Archives, deletes the archived threads, prunes signals and tasks, each statement at its own time, and counts each; fails before changing anything on an archive clash |
| Maintenance.RetentionConserves | src/ticketflow/runner.py:350-388 | A run leaves exactly when terminal and untouched for longer than the age, and is archived as it stood; a task or signal exactly when settled or consumed and that old |
| Maintenance.ClashExactly | src/ticketflow/db.py:339-375 | A pass fails iff some due run is archived already |
| Reachable.StepReaches | src/ticketflow/runner.py:243-288 | A step leaves every ticket where some engine run does, with the same decisions accepted |
| Reachable.WorkReaches | src/ticketflow/agent_worker.py:79-146 | So does handling a task |
| Reachable.SubmitReaches | src/ticketflow/api.py:222-236 | So does a submission, which joins the history with the draft the thread then holds |
| Reachable.CreateReaches | src/ticketflow/api.py:151-180 | So does creating a ticket |
| Reachable.JanitorReaches | src/ticketflow/runner.py:326-339 | So does a janitor pass |
| Reachable.RetentionReaches | src/ticketflow/runner.py:350-388 | So does a retention pass, the archive's conflict read off the tables: a pass with none archives every due ticket |
| Reachable.ReconcileReaches | src/ticketflow/runner.py:291-323 | So does a reconciling pass |
| Reachable.RefundRestsOnFirst | src/ticketflow/graph.py:359-422 | In reached tables a refund rests on the first accepted decision, an approval, and has the amount of the draft in the thread at that acceptance; the checkpoint's decision is that first one |
| Reachable.IdleBeside | src/ticketflow/runner.py:391-428 | Processes that do nothing change nothing for those that do |
| Programs.AllReached | src/ticketflow/runner.py:391-428 | After any sequence of programs (steps, deliveries, creations, decisions, janitor, retention, reconciling) every ticket's rows are reached by an engine run with the same accepted decisions |
| Programs.RefundWasDecided | src/ticketflow/graph.py:343-422 | After any sequence of programs, a refund row implies an accepted submission that approved that ticket while its thread held a draft refunding that amount |
| Programs.TablesAlwaysAgree | src/ticketflow/side_effect_worker.py:57-68 | After any sequence of programs, results agree with replies and refunds, no projection is ahead, at most one decision waits |
| CarriedOut.RefundIsCarriedOut | src/ticketflow/graph.py:272-442 | For every ticket, classification, refunding draft and approval some schedule pays exactly the amount, and accepts a second decision on the way |
| TokenBucketModel.TokenBucket.Make | src/ticketflow/agent_worker.py:24-35 | A bucket exists iff the rate is positive |
| TokenBucketModel.TokenBucket.Acquire | src/ticketflow/agent_worker.py:37-49 | Grants at once or at the next free instant, and moves that instant one interval past the grant |
| TokenBucketModel.ScheduleIsLegal | src/ticketflow/agent_worker.py:37-49 | Grants come in call order, never before the call, at least one interval apart |
| TokenBucketModel.ScheduleIsEarliest | src/ticketflow/agent_worker.py:37-49 | Every schedule with those constraints is pointwise as late or later |
| TokenBucketModel.WindowBound | src/ticketflow/agent_worker.py:37-49 | A half-open window of length L holds at most ceil(L * rate) grants |
| TokenBucketModel.WaitForOne | src/ticketflow/agent_worker.py:181-187 | Ended tasks leave the in-flight set, an error goes on to the caller, and whether any task was found is reported |
| TokenBucketModel.RunForever | src/ticketflow/agent_worker.py:153-222 | Whatever the tasks end with: at every wait as many in flight as the bound allows, namely those left over and those just started; starts paced by the bucket, an error iff some ended task raised, a non-positive bound rejected |
| Migrations.BeforeIsLexicographic | src/ticketflow/db.py:794-799 | Versions are ordered as strings are |
| Migrations.ValidIncreasing | src/ticketflow/db.py:794-799 | A list is accepted iff its versions strictly increase; a repeated version is what is reported first |
| Migrations.StatementsThenMarker | src/ticketflow/db.py:844-855 | A migration is its statements in listed order, then its marker |
| Migrations.SchemaStore.ApplyMigrations | src/ticketflow/db.py:802-856 | The nested loop in one transaction does what `Bootstrap` says: pending statements and markers in order, or an error (at a statement, a marker or the commit) and nothing |
| Migrations.MigrationsCompose | src/ticketflow/db.py:802-856 | Any history of repeated and rolled-back runs over growing lists executes exactly what one fresh run of the last does, statements and markers in order, once each |
| Migrations.UnknownVersionChangesNothing | src/ticketflow/db.py:802-856 | A run changes nothing iff it raises or all its versions are applied; an unknown applied version always raises |

## Left out

- HTTP routing, readiness, response bodies, connection pools, logging, tracing, configuration, Docker and the scripts: no protocol state.
- The mock agent and its randomness: an agent's answer is a parameter.
- LangGraph's and Postgres's internals, row locks and `SKIP LOCKED` included: the assumptions above stand in for them, and concurrent writers that would fork one LangGraph thread are not modelled.
- The async twins of the database functions: folded into the sync ones.
- The `kind` column of `pending_signal`, and `task_type` and `workflow_id` of `task_queue`: each has one possible value per row here and is read off the key or payload.
- JSON encoding and validation of payloads: identity on typed values; a resume of the wrong type raises in the node.
- `readmodel.clear` and the reset script: they break the ledgers' promises on purpose.
- `list_runs_by_status`, `get_ticket` and `ping`: they only read.
- Crashes inside a pass are modelled in the engine, not in the methods of `Runner.dfy` and `Worker.dfy`, which run undisturbed.
- TokenBucketModel.RunForever: does not model polling sleeps, cancellation of the loop, or the wait for what is still in flight when it ends; it ends when its inputs do or a task raises.
- Approval.RejectionIsLast: says nothing once the run is archived, because a slow reconciler can then reopen it.
- Approval.FurtherDecisionAccepted: speaks of the moment after an undisturbed save; a finalization ends it.
