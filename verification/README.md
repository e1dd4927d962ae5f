# A verified model of the agent workflow engine and its stores

A Dafny 4.11 model of the parts of the repository that must stay correct under crashes, duplicate and late deliveries, concurrent workers and interleaved transactions, with proofs of what they guarantee. `dafny verify dfyconfig.toml` checks the whole project.

The model has six cores.

1. **Workflow engine.** Plans, tasks, executions, the outbox, the stream with its pending entries, the inbox and the clock form one state machine (`WorkflowSystem`). Its steps are the short transactions: create, draft, finalize, ask, answer, claim, complete, fail, require compensation, begin, finish or fail a compensation, lock, replan, publish, deliver, acknowledge. Workers are jobs that hold an old snapshot and may go on at any time, or never. `WorkflowTheorems`, `WorkflowBounds`, `CompensationAttempts` and `TurnTheorems` state what holds in every run, and `EngineWitness` and `RetryTiming` show that the states they speak of are reached; `SystemRuns.ExecKeeps` is the inductive step behind them. What every accepted step leaves behind is stated row by row, apart from the functions that compute it, in `RuntimeOutcomes`, `ClaimOutcomes` and `PlanningOutcomes`, and followed through runs: from a planner's requests to the published graph (`DraftLaws`), from a failure to the next attempt (`RetryLaws`), from an executor's report to the aggregation (`ReportedResults`), from a new event to its publication or its death (`OutboxLaws`).
2. **Plan validation.** The recursive closure with its memo and its visiting set (`PlanDag.DagValidator`), with the exact condition of every outcome. The engine's progress proof rests on its result (`PlanPublication.EdgesAcyclic`).
3. **Resource cache.** The Lua steps over a list, a hash and a version (`ResourceQueue.RedisQueue`), and the history of database facts that the cache must agree with under lost, late, repeated and reordered refreshes (`ResourceCache`).
4. **Context store.** A state table that equals the replay of its append-only log (`ContextFacts`), and the completion of a turn, which redeliveries must not repeat (`ContextTurns`, `ContextTurnService`, `TurnOutcomes`). `Aggregation` and `AggregationCommand` connect the engine with it: a completed plan always passes the checks, and what its executions reported ends up as facts.
5. **Log pagination.** Timestamps, keys, sorting, cutting, and resuming through an encoded cursor over files that grow between the calls (`IsoTimestamps`, `Base64Url`, `LogRecords`, `LogPaging`, `LogCursor`).
6. **Chunk builds and tool calls.** Ownership of a document among the stages of its pipeline, conservation of the built blocks (`ChunkBuild`, `DocumentChunks`), and the pairing of tool calls with their outputs (`ToolPairing`).

## How the model is built

Every transaction is a function from a state to a state, and the source's classes are Dafny classes whose methods are proved to perform exactly that function (`TaskRuntimeService.Runtime`, `PlanningUseCases.Planning`, `PlanDag.DagValidator`, `MessagingWorkers`, `ResourceQueue.RedisQueue`, `ContextFacts.ContextStore`, `ContextTurnService.ContextService`, `DocumentChunks.ChunkedDocument`). The state machines run these functions, so the theorems about runs are theorems about the methods.

- Row locks make transactions atomic; the inbox check of a claim and its commit are still two steps of the machine, so two workers can both pass the check, and a worker may prepare a revision though it read the inbox before another worker recorded the event. A violated unique constraint rolls the transaction back.
- Snapshots, executor outcomes, compensator outcomes, planner results and deliveries are arbitrary: they are parameters of the steps.
- Plans, tasks, executions and edges of one plan are kept in one record; ids are integers; a transaction reads the clock once.
- `claimedBy` and `failures` of an execution, `builtAt` of the cache and `history` of a document record what happened. The source keeps no such fields; no step reads them.
- A claim that fences off a mismatched event after marking an expired lease commits that mark together with the inbox row, so the mark stays exactly when the claim was made for an event.

## Findings

- The comment at `app/modules/task_runtime/application/runtime.py:330` says that due retries become pending; the code makes all of them pending on any wakeup, and the model follows the code. A retry can start at the instant of its failure (`RetryTiming.RetryNeedNotWait`); which task a claim starts never depends on the time (`WorkflowTheorems.ClaimStartsFirst`).
- The compensation counter is raised before an attempt (`app/modules/task_runtime/application/runtime.py:604`), so workers that die in an attempt push it past its limit, and beyond every bound (`CompensationAttempts.CounterHasNoBound`). It passes the limit exactly at an attempt begun when it is at the limit, and a run stays within the limit if and only if it begins no such attempt (`CompensationAttempts.StepPassesLimitIff`, `CompensationAttempts.WithinLimitIff`). What is bounded are the recorded failures (`WorkflowBounds.CompensationFailuresAreBounded`).
- The log's keys are a strict total order, and pagination complete, exactly if no key occurs twice (`LogPaging.CompleteIffKeysAreUnique`); a configuration guarantees that, whatever the files hold, exactly if no two files agree in both source id and name (`LogRecords.KeysAreUniqueIff`). The source signature of a cursor tells a configuration apart from all others exactly if no id and no prefix of it holds a colon (`LogCursor.SignatureTellsIff`).
- A completed turn is not final by itself: planning makes a turn processing or failed without looking at its state (`app/modules/planning/application/use_cases.py:595`, `app/modules/planning/application/replan.py:175`). A turn completed through the completion endpoint before its plan has ended can therefore be reopened and completed a second time, on a second new chain (`TurnTheorems.EarlyCompletionIsReopened`, `ContextTurns.ReopenedTurnIsCompletedTwice`), or refuse a redelivery (`ContextTurns.FailedTurnRefusesRedelivery`). Completing a turn again is idempotent exactly if the turn has not been reopened since (`ContextTurns.RedeliveryRepeatsIffNotReopened`), and a turn completed by the aggregation, or for an unsupported plan, never is (`TurnTheorems.ClosedTurnIsNeverReopened`). The steps that reopen a turn, with their guards, are exactly those of `TurnTheorems.ReopenedIff`.
- That a failed document with children never enters chunking again holds of a claim, not of a run: it does exactly if an operation is accepted for processing, finishes it, and a later claim is accepted (`DocumentChunks.ChunkedAgainIffReprocessed`). Conversely, a document that was chunked before and whose new chunk build is compensated cannot be claimed for chunking again (`DocumentChunks.RetryAfterCompensation`).
- The checks on a chunk build are needed: with distinct parents, children are lost exactly when their group names no parent (`ChunkBuild.NothingLostIff`).

## Model

| member | source | states |
|---|---|---|
| WorkflowTheorems.NoLostDriver | app/modules/task_runtime/application/runtime.py:252-417 | In every run, an open plan without a locked compensation has an event under way (not yet published, dead-lettered, or pending in the stream) and not yet in the runtime inbox that moves it on: a plain wakeup when nothing is current, one available no earlier than the lease end while an execution runs, a plain or matching one while compensation is required |
| WorkflowTheorems.IdlePlanIsDriven | app/modules/task_runtime/application/runtime.py:854-874 | An open plan with nothing current has a plain wakeup under way |
| WorkflowTheorems.BusyPlanIsDriven | app/modules/task_runtime/application/runtime.py:432-477 | A plan with a current task has exactly one active latest execution, with a lease wakeup while it runs and a matching one while it waits for compensation |
| WorkflowTheorems.ReplanIsDriven | app/modules/task_runtime/application/runtime.py:774-803 | A plan that waits for its next revision has its replan event under way |
| WorkflowTheorems.CompletedIsDriven | app/modules/task_runtime/application/runtime.py:863-873 | A completed plan has its aggregation event under way or already aggregated |
| WorkflowTheorems.UnconsumedIsUnderWay | app/modules/messaging/infrastructure/redis_streams.py:199-222 | An event that its consumer has not recorded is still under way: entries are acknowledged only after handling |
| WorkflowTheorems.NewestIsUnsuperseded | app/modules/planning/application/replan.py:206-227 | Only the newest revision of a workflow is not superseded |
| WorkflowTheorems.SingleActiveExecution | app/modules/task_runtime/application/runtime.py:283-417 | Across all revisions of a workflow at most one execution is running, awaiting compensation or locked; it is the latest attempt of the current task of the newest revision |
| WorkflowTheorems.StatusesMoveForward | app/modules/task_runtime/application/runtime.py:709-945 | Over every run an execution stays and its status only moves forward |
| WorkflowTheorems.StaleWorkerIsFenced | app/modules/task_runtime/application/runtime.py:929-945 | Once an execution is no longer running, no snapshot of it can complete it, fail it or require its compensation, now or after any further run |
| WorkflowTheorems.StaleCompensationIsFenced | app/modules/task_runtime/application/runtime.py:813-831 | Once an execution is settled or locked, no compensation step for it commits, now or after any further run |
| WorkflowTheorems.OlderSnapshotIsSettled | app/modules/task_runtime/application/runtime.py:929-945 | While another execution of the plan is active, an earlier one is settled, so its holder is fenced |
| WorkflowTheorems.ClaimAlwaysProgresses | app/modules/task_runtime/application/runtime.py:330-417 | In every run, a claim on an open plan with nothing current starts a pending or retrying task whose dependencies have all succeeded; it never reports no_task |
| WorkflowTheorems.ClaimStartsFirst | app/modules/task_runtime/application/runtime.py:330-342 | In every run, a claim on an open plan with nothing current starts, at any time, the first by sequence of the pending and retrying tasks whose dependencies have succeeded: exactly that one, whether its retry is due or not |
| WorkflowTheorems.ClaimIgnoresClock | app/modules/task_runtime/application/runtime.py:330-347 | The outcome of a claim on a plan with nothing current is the same at every time |
| WorkflowTheorems.DueDriverRecovers | app/modules/task_runtime/application/runtime.py:283-309 | In every run, a worker that passed the inbox check for the driver of a busy plan and commits its claim once the driver is due goes on to recover exactly the current execution |
| WorkflowTheorems.DriverIsTakenOver | app/modules/task_runtime/application/runtime.py:432-477 | The claim for the lease wakeup once it is due, or for a plain or matching wakeup while compensation is required, hands out the current execution for recovery |
| WorkflowTheorems.TopologicalOrder | app/modules/task_runtime/application/runtime.py:337-342 | What a started task depends on has succeeded and stays succeeded: tasks succeed in a topological order of the stored edges |
| WorkflowTheorems.CompletionAlwaysEmits | app/modules/task_runtime/application/runtime.py:854-874 | In every run, a successful completion emits a wakeup or the aggregation event, the latter exactly when all tasks succeeded: the branch with unfinished tasks and no event is unreachable |
| WorkflowBounds.ConsumedClaimStartsNothing | app/modules/task_runtime/application/runtime.py:261-265 | A claim that reaches its commit for an event already in the inbox starts nothing: it is rolled back, or only hands out a recovery |
| WorkflowBounds.OneClaimPerEvent | app/modules/task_runtime/application/runtime.py:419-430 | After any further run, a second worker that passed the inbox check for the same event still starts nothing |
| WorkflowBounds.ExecutionsMapToInbox | app/modules/task_runtime/application/runtime.py:261-268 | In every run, executions map injectively to the inbox rows of the events they were claimed for |
| WorkflowBounds.AcknowledgedIsConsumed | app/modules/messaging/infrastructure/redis_streams.py:211-221 | In every run, the event of an acknowledged entry is in its consumer's inbox |
| WorkflowBounds.WorkIsBounded | app/modules/task_runtime/application/runtime.py:351-354 | In every run, a workflow makes at most revisions times tasks times attempts claims |
| WorkflowBounds.ShippedBound | app/modules/task_runtime/application/registry.py:30-66 | With the shipped limits that is 90 |
| WorkflowBounds.SlotsAreDistinct | app/modules/task_runtime/application/runtime.py:364-385 | An execution is determined by its revision, sequence number and attempt |
| WorkflowBounds.ClaimSpendsBudget | app/modules/task_runtime/application/runtime.py:351-398 | A claim that starts an execution uses up exactly one unit of the bound |
| WorkflowBounds.BudgetNeverGrows | app/modules/task_runtime/application/runtime.py:252-417 | Executions are never forgotten, so used units never come back |
| WorkflowBounds.RevisionsAreAChain | app/modules/planning/application/replan.py:132-235 | In every run the revisions of a workflow are exactly 1..k with k at most 3, each with its predecessor as parent, and all but the last superseded |
| WorkflowBounds.ReplannedPlanNeverRuns | app/modules/task_runtime/application/runtime.py:779-803 | Once a replan event of a plan exists, the plan is never ready or running again |
| WorkflowBounds.FinalStatusesStay | app/modules/planning/application/replan.py:206-212 | Over every run plan statuses only make the allowed moves: superseded and completed plans stay so |
| WorkflowBounds.CompensationFailuresAreBounded | app/modules/task_runtime/application/runtime.py:610-677 | In every run the recorded compensation failures of an execution are at most the limit (at least one), strictly increasing in attempt number, non-decreasing in delay, and the last one locks it exactly when the limit is reached |
| WorkflowBounds.BackoffGrows | app/modules/task_runtime/application/runtime.py:645-650 | The back-off delay never shrinks and never exceeds the cap |
| WorkflowBounds.LockIsAbsorbing | app/modules/task_runtime/application/runtime.py:679-707 | From a lock no step of any worker changes the execution, its task or the plan's current task |
| TurnTheorems.ReopenedIff | app/modules/planning/application/use_cases.py:571-598 | On the whole machine a step reopens a completed turn if and only if it is an accepted retry of a plan of the turn that is in planning or waits for an answer, or the first handling of a request of the turn for a revision beyond the limit |
| TurnTheorems.PrepareMoves | app/modules/planning/application/replan.py:166-185 | The second of these: a replan request reopens the turn exactly at the limit, if its inbox row is not seen |
| TurnTheorems.CompletedUntilReopened | app/modules/planning/application/use_cases.py:571-598 | Over every run a completed turn stays completed up to its first reopening, and exactly that step ends it |
| TurnTheorems.ClosedTurnIsNeverReopened | app/modules/planning/application/use_cases.py:571-598 | In every run, once the turn of a completed or unsupported plan is completed, no later step reopens it |
| TurnTheorems.AggregatedTurnIsNeverReopened | app/modules/aggregation/application/aggregate_plan.py:139-143 | So a turn that the aggregation has completed stays completed |
| TurnTheorems.EarlyCompletionIsReopened | app/modules/context/presentation/router.py:156-189 | What does reopen a turn: the completion endpoint called while the plan is still being made, followed by a planning run that fails |
| TurnTheorems.RunKeepsTurnsOk | app/modules/planning/application/use_cases.py:125-175 | In every run all plans of a turn are revisions of one workflow |
| TurnTheorems.OthersAreSuperseded | app/modules/planning/application/replan.py:206-227 | Beside a completed or unsupported plan all plans of its turn are superseded |
| EngineWitness.ReadyIsReachable | app/modules/planning/application/use_cases.py:346-459 | A published plan is reachable |
| EngineWitness.CompletedIsReachable | app/modules/task_runtime/application/runtime.py:868-873 | A completed plan is reachable |
| EngineWitness.LockIsReachable | app/modules/task_runtime/application/runtime.py:679-707 | A locked compensation is reachable, whatever the limit on attempts |
| RetryTiming.RetryNeedNotWait | app/modules/task_runtime/application/runtime.py:330-336 | Whenever a task is allowed two attempts, there is a run in which its first attempt fails, the wakeup for the retry is due only after the delay, and the second attempt starts with no time passing, with or without a compensation in between |
| CompensationAttempts.CounterCountsAttempts | app/modules/task_runtime/application/runtime.py:604-608 | Over every run the counter of an execution grows by exactly the attempts begun in it; no other step of the machine changes it |
| CompensationAttempts.StepCounts | app/modules/task_runtime/application/runtime.py:604-608 | The same for one step |
| CompensationAttempts.StepPassesLimitIff | app/modules/task_runtime/application/runtime.py:586-608 | One step takes the counter past the limit if and only if it begins an owned attempt while the counter is at the limit |
| CompensationAttempts.WithinLimitIff | app/modules/task_runtime/application/runtime.py:586-608 | Over every run the counter stays within the limit if and only if no attempt is begun at the limit |
| CompensationAttempts.CounterHasNoBound | app/modules/task_runtime/application/runtime.py:604-608 | For every limit and every number there is a run in which that many attempts are counted and the execution still waits for compensation: workers that die in the middle of their attempts |
| DraftLaws.PublishedAsRequested | app/modules/planning/application/use_cases.py:346-459 | In every run, from the publication of a plan on: its tasks keep the requested references, capabilities and sequence numbers, and task t depends on task u if and only if the request for t lists the reference of the request for u |
| DraftLaws.TaskWasRequested | app/modules/planning/application/use_cases.py:196-285 | In every run, every task of every plan was stored by an accepted request for it |
| DraftLaws.RequestStays | app/modules/planning/application/use_cases.py:248-276 | In every run, a requested task is never dropped and never loses its reference, capability, sequence number or dependencies |
| DraftLaws.NoTaskAfterPublication | app/modules/planning/application/use_cases.py:209-216 | No request for a task of a published plan is ever accepted |
| DraftLaws.PublishedChainsAreShort | app/modules/planning/application/use_cases.py:511-540 | In every run, from the publication of a plan on, no chain of its stored dependencies has more than three tasks |
| DraftLaws.DraftOutcome | app/modules/planning/application/use_cases.py:196-285 | A draft is stored exactly if the plan is in planning for that turn, holds fewer than ten tasks, none with its reference or sequence number, and the draft does not depend on itself; it is stored as requested, and a refused one changes nothing |
| ReportedResults.SnapshotReadsReports | app/modules/aggregation/application/aggregate_plan.py:127-193 | From end to end, in every run: a reference is read by the aggregation of a completed plan if and only if a successful execution of the plan reported it |
| ReportedResults.ReportStays | app/modules/task_runtime/application/runtime.py:846-853 | In every run, from an accepted completion on, the execution holds the first occurrences of the reported references, in order |
| ReportedResults.SuccessWasReported | app/modules/task_runtime/application/runtime.py:833-874 | In every run, every successful execution was completed by a worker that owned it |
| ReportedResults.OtherStepsMakeNoSuccess | app/modules/task_runtime/application/runtime.py:833-874 | No other step of the machine makes an execution succeed |
| RetryLaws.RetriedWasRetryable | app/modules/task_runtime/application/runtime.py:892-902 | In every run, an execution that is followed by a later attempt of its task has failed or been undone, and its error was retryable |
| RetryLaws.WaitingWasRetryable | app/modules/task_runtime/application/runtime.py:751-773 | In every run, a task that waits for another attempt has attempts left, and its earlier executions ended in retryable errors |
| RetryLaws.ExpiredLeaseIsRetried | app/modules/task_runtime/application/runtime.py:432-477 | In every run, when a claim finds the lease of the current execution over and the compensation that follows succeeds, whatever else happened that leaves the plan alone: the task is pending with a wakeup due at once if it has attempts left, else it has failed and the next revision is requested |
| OutboxLaws.LoadOutcome | app/modules/messaging/application/outbox.py:93-117 | A publisher takes an event exactly if it is pending and due |
| OutboxLaws.DeadAfterTenFailures | app/modules/messaging/application/outbox.py:119-146 | In every run, the attempts of an event are its recorded failures; it is dead exactly after ten of them, published exactly after its one recorded success, and pending otherwise |
| OutboxLaws.DueEventCanBePublished | app/modules/messaging/application/outbox.py:59-129 | A pending event that is due can always be loaded, sent and marked, and is then in the stream |
| OutboxLaws.StepRecords | app/modules/messaging/application/outbox.py:119-146 | One step publishes an event, or counts one more failure and lets the tenth kill it, exactly if it records that outcome for the pending event; every other step of the machine leaves the event as it is |
| RuntimeOutcomes.TokensAreExact | app/modules/task_runtime/application/runtime.py:813-831 | A snapshot is owned exactly if it names the current task of its plan and its execution, in the right status and with the same tokens |
| RuntimeOutcomes.SucceedOutcome | app/modules/task_runtime/application/runtime.py:833-874 | A completion commits exactly for the owner: the references are stored, the plan is complete exactly if all its other tasks have succeeded, and the next event says so; any other changes nothing |
| RuntimeOutcomes.FailOutcome | app/modules/task_runtime/application/runtime.py:876-927 | A failure commits exactly for the owner. With side effects the execution waits for its compensation; without, the task goes back to wait if and only if the error is retryable and attempts are left, else it is blocked exactly if the error is, or failed, and the plan requests its next revision with the matching trigger |
| RuntimeOutcomes.BeginOutcome | app/modules/task_runtime/application/runtime.py:586-608 | A compensation attempt is counted exactly for the owner |
| RuntimeOutcomes.AttemptFailsOutcome | app/modules/task_runtime/application/runtime.py:610-707 | A failed attempt is recorded exactly for the owner of the last attempt counted: at the limit it locks the execution, below it waits for its own wakeup for the first delay doubled once per earlier attempt, up to the cap |
| RuntimeOutcomes.AttemptSucceedsOutcome | app/modules/task_runtime/application/runtime.py:725-811 | A finished compensation commits exactly for the owner, once per event: the task goes back if and only if the recorded error is retryable and attempts are left, at once after an expired lease and after the delay otherwise |
| RuntimeOutcomes.DoublingIsPower | app/modules/task_runtime/application/runtime.py:645-650 | Doubling n times multiplies by the n-th power of two |
| RuntimeOutcomes.ShippedDelays | app/modules/task_runtime/application/runtime.py:645-650 | With the shipped settings a compensation waits 30, 60, 120 and 240 seconds, then 300 |
| ClaimOutcomes.ClaimStartsOutcome | app/modules/task_runtime/application/runtime.py:330-417 | On an open plan with nothing current, a plain claim starts the next attempt of the first task that may be started, with a wakeup for the end of its lease, unless its event has been handled meanwhile |
| ClaimOutcomes.ClaimLooksOutcome | app/modules/task_runtime/application/runtime.py:283-312 | On a plan with a current task a claim starts nothing: it takes the execution over exactly if that waits for compensation, or runs past its lease, and the event is not for another one; a lease found over is recorded as a retryable error |
| ClaimOutcomes.ClaimRestsOutcome | app/modules/task_runtime/application/runtime.py:269-329 | On any other plan a claim only records its event |
| ClaimOutcomes.ClaimMissesOutcome | app/modules/task_runtime/application/runtime.py:266-269 | A claim for an unknown plan changes nothing |
| PlanningOutcomes.StartOutcome | app/modules/planning/application/use_cases.py:125-175 | A workflow begins with an empty first revision exactly if its turn exists and has none yet |
| PlanningOutcomes.PublishOutcome | app/modules/planning/application/use_cases.py:346-459 | Publication happens exactly if there are one to ten drafts, numbered from 1, that pass validation, for the turn of the plan in a state that allows it; the tasks become pending, the edges are those of their references, the first wakeup is due at once; else nothing changes |
| PlanningOutcomes.UnsupportedOutcome | app/modules/planning/application/use_cases.py:555-618 | A plan is declared unsupported exactly if it is in planning and a reason is given |
| PlanningOutcomes.RetryOutcome | app/modules/planning/application/use_cases.py:555-618 | A planning run is retried exactly from planning or an open question: the next revision is requested, the question expires, the turn is processed again |
| PlanningOutcomes.AskOutcome | app/modules/planning/application/use_cases.py:649-728 | A question is asked at most once for a turn, in its own conversation, from the states that allow it |
| PlanningOutcomes.AnswerOutcome | app/modules/clarification/application/answer.py:45-164 | An answer is taken exactly once for the open question of its turn; it requests the next revision and lets the turn go on |
| PlanningOutcomes.PrepareOutcome | app/modules/planning/application/replan.py:117-235 | A replan event not seen in the inbox makes the next revision, finds it made, or beyond the third revision gives the workflow up, with the statuses that the unfinished tasks get; a redelivered one changes nothing. The planner runs next exactly on a revision in planning |
| PlanningOutcomes.AggregateOutcome | app/modules/aggregation/application/aggregate_plan.py:80-143 | The aggregation completes the turn exactly from the states that allow it |
| PlanningOutcomes.ResolveOutcome | app/modules/aggregation/application/aggregate_plan.py:218-238 | Exactly the answered question of the parent plan is resolved |
| PlanningOutcomes.RecordOutcome | app/modules/messaging/worker/dispatcher.py:111-128 | The aggregated event is recorded once |
| SystemRuns.ExecKeeps | app/modules/task_runtime/application/runtime.py:252-945 | Every step of the machine (transactions, publication, delivery, acknowledgement, crash, clock) keeps the whole invariant and only lets rows evolve |
| SystemRuns.RunKeeps | app/modules/task_runtime/application/runtime.py:252-945 | The same over every sequence of steps |
| SystemRuns.Reachable | app/modules/task_runtime/application/runtime.py:252-945 | Every reachable state satisfies the invariant |
| SystemPreservation.TransactionKeeps | app/modules/task_runtime/application/runtime.py:252-945 | A job's transaction leaves every other job and the stream consistent |
| RuntimeTransactions.ClaimDbKeeps | app/modules/task_runtime/application/runtime.py:252-417 | A claim keeps the database invariant, drivers included, in all its branches |
| RuntimeTransactions.CompleteDbKeeps | app/modules/task_runtime/application/runtime.py:833-874 | So does a completion |
| RuntimeTransactions.FailDbKeeps | app/modules/task_runtime/application/runtime.py:876-927 | So does a failure without side effects |
| RuntimeTransactions.RequireDbKeeps | app/modules/task_runtime/application/runtime.py:709-723 | So does requiring compensation |
| RuntimeTransactions.BeginDbKeeps | app/modules/task_runtime/application/runtime.py:586-608 | So does beginning a compensation attempt |
| RuntimeTransactions.CompensationFailedDbKeeps | app/modules/task_runtime/application/runtime.py:610-707 | So does recording a failed compensation, scheduled again or locked |
| RuntimeTransactions.CompensationDoneDbKeeps | app/modules/task_runtime/application/runtime.py:725-811 | So does a finished compensation, with retry or replan |
| PlanPreservation.ClaimFindsTask | app/modules/task_runtime/application/runtime.py:330-347 | An open plan with nothing current has a runnable task after retrying tasks are requeued |
| PlanPreservation.SomeRunnable | app/modules/task_runtime/application/runtime.py:337-342 | A plan of pending and succeeded tasks with acyclic edges has a task whose dependencies have all succeeded |
| PlanPreservation.CompleteKeeps | app/modules/task_runtime/application/runtime.py:833-874 | A completion keeps the plan's invariant and lets the current task go with an event |
| PlanPreservation.FinishCompensationKeeps | app/modules/task_runtime/application/runtime.py:725-811 | So does a finished compensation |
| PlanPreservation.BeginKeeps | app/modules/task_runtime/application/runtime.py:586-608 | Counting a compensation attempt keeps the plan's invariant |
| PlanPreservation.FailCompensationKeeps | app/modules/task_runtime/application/runtime.py:610-677 | A failed compensation always commits and keeps the plan's invariant |
| PlanPreservation.CompletionBranches | app/modules/task_runtime/application/runtime.py:854-873 | After a completion some task is pending or retrying, or all have succeeded |
| PlanPreservation.ActiveUnique | app/modules/task_runtime/application/runtime.py:283-312 | A plan has at most one active execution |
| TaskRuntimeService.GetNextRunnable | app/modules/task_runtime/application/runtime.py:337-342 | The first pending task, by sequence, whose dependencies have all succeeded, or none |
| TaskRuntimeService.GetLatestByTask | app/modules/task_runtime/application/runtime.py:442-446 | The attempt with the highest number of a task |
| TaskRuntimeService.StableDedup | app/modules/task_runtime/application/runtime.py:850 | First occurrences in order |
| TaskRuntimeService.Runtime.ClaimNextTask | app/modules/task_runtime/application/runtime.py:252-417 | The method is the claim transaction that the machine runs; an event already in the inbox changes nothing |
| TaskRuntimeService.Runtime.RecoverStaleExecution | app/modules/task_runtime/application/runtime.py:432-477 | The recovery decision: locked, required, still leased, or expired now, as the step of `ClaimOutcomes.ClaimLooksOutcome` takes it |
| TaskRuntimeService.Runtime.CompleteExecution | app/modules/task_runtime/application/runtime.py:833-874 | The method is the completion transaction of the machine, whose effect is `RuntimeOutcomes.SucceedOutcome` |
| TaskRuntimeService.Runtime.FailExecution | app/modules/task_runtime/application/runtime.py:876-927 | The method is the failure transaction of the machine, whose effect is `RuntimeOutcomes.FailOutcome` |
| TaskRuntimeService.Runtime.RequireCompensationOf | app/modules/task_runtime/application/runtime.py:709-723 | The method is the transaction that records the need for compensation |
| TaskRuntimeService.Runtime.BeginCompensationAttempt | app/modules/task_runtime/application/runtime.py:586-608 | The method counts the attempt before its outcome is known |
| TaskRuntimeService.Runtime.BackoffDelay | app/modules/task_runtime/application/runtime.py:645-650 | The delay of an attempt: doubled per attempt, capped |
| TaskRuntimeService.Runtime.HandleCompensationFailure | app/modules/task_runtime/application/runtime.py:610-707 | The method is the transaction of a failed attempt: a later wakeup or the lock |
| TaskRuntimeService.Runtime.CompleteCompensation | app/modules/task_runtime/application/runtime.py:725-811 | The method is the transaction of a finished compensation, whose effect is `RuntimeOutcomes.AttemptSucceedsOutcome` |
| TaskRuntimeService.Runtime.LockExecution | app/modules/task_runtime/application/runtime.py:929-945 | The token test holds exactly for the owner of the running execution |
| TaskRuntimeService.Runtime.CheckCompensationToken | app/modules/task_runtime/application/runtime.py:813-831 | The token test holds exactly for the owner of the execution to be compensated |
| PlanDag.DagValidator.Validate | app/modules/planning/application/use_cases.py:461-540 | Total on every graph, with the exact condition of every outcome: the cycle error exactly for well-formed drafts with a cycle, the depth error exactly for acyclic ones with a path of more than 3 tasks; on success the memoised depths are longest-path lengths and the pairs are exactly the edges, each once |
| PlanDag.DagValidator.Depth | app/modules/planning/application/use_cases.py:511-528 | The memoised recursion terminates, computes longest-path lengths and fails only on a real cycle |
| PlanDag.DagValidator.DeepestChain | app/modules/planning/application/use_cases.py:530-535 | The maximum exceeds 3 exactly when some path has more than 3 tasks |
| PlanDag.DagValidator.BuildGraph | app/modules/planning/application/use_cases.py:487-509 | Succeeds exactly on well-formed drafts; otherwise the error is that of the first bad draft |
| PlanDag.DagValidator.IndexByRef | app/modules/planning/application/use_cases.py:480-486 | References are unique exactly when the index is as long as the list |
| PlanDag.DagValidator.EdgePairs | app/modules/planning/application/use_cases.py:536-540 | Exactly the edges, mapped to task ids, each once |
| PlanDag.DepthUnique | app/modules/planning/application/use_cases.py:514-528 | The depth of a task is unique |
| PlanDag.DepthExcludesCycle | app/modules/planning/application/use_cases.py:514-528 | A task on a cycle has no depth |
| PlanDag.CycleOnStack | app/modules/planning/application/use_cases.py:517-522 | Meeting a task that is being visited proves a cycle |
| PlanDag.FirstBadUnique | app/modules/planning/application/use_cases.py:488-508 | The reported draft error is determined by the drafts |
| PlanPublication.EdgesAcyclic | app/modules/planning/application/use_cases.py:394-421 | The edges of drafts that pass validation are acyclic on task ids |
| PlanPublication.PublishKeeps | app/modules/planning/application/use_cases.py:423-440 | Publication establishes the invariant of a running plan, sequences 1..n included |
| PlanningTransactions.CreatePlanKeeps | app/modules/planning/application/use_cases.py:125-175 | Creating the first revision of a fresh workflow keeps the database invariant |
| PlanningTransactions.CreateTaskKeeps | app/modules/planning/application/use_cases.py:196-283 | So does adding a draft task |
| PlanningTransactions.FinalizeKeeps | app/modules/planning/application/use_cases.py:346-459 | So does publication, which emits the first wakeup |
| PlanningTransactions.MarkUnsupportedKeeps | app/modules/planning/application/use_cases.py:555-618 | So does marking a plan unsupported |
| PlanningTransactions.MarkRetryPendingKeeps | app/modules/planning/application/use_cases.py:555-618 | So does asking for another planning run |
| PlanningTransactions.AskReplanKeeps | app/modules/planning/application/use_cases.py:555-618 | Asking for a revision leaves its replan event in the outbox |
| PlanningTransactions.MarkNeedsClarificationKeeps | app/modules/planning/application/use_cases.py:649-728 | So does asking the user |
| PlanningTransactions.AnswerKeeps | app/modules/clarification/application/answer.py:45-164 | So does the answer, which emits the replan event |
| PlanningUseCases.Planning.CreateDraft | app/modules/planning/application/use_cases.py:196-283 | The method is the draft transaction of the machine, errors in the source's order; its effect is `DraftLaws.DraftOutcome` |
| PlanningUseCases.Planning.FinalizePlan | app/modules/planning/application/use_cases.py:346-459 | The method, with the validator inside, is the publication transaction of the machine |
| PlanningUseCases.Planning.ValidateDag | app/modules/planning/application/use_cases.py:394-395 | The validator's verdict and pairs are the ones the specification uses |
| PlanningUseCases.Planning.MarkPlanUnsupported | app/modules/planning/application/use_cases.py:555-618 | The method is the transaction of the machine |
| PlanningUseCases.Planning.MarkPlanRetryPending | app/modules/planning/application/use_cases.py:555-618 | The method is the transaction of the machine |
| PlanningUseCases.Planning.MarkPlanNeedsClarification | app/modules/planning/application/use_cases.py:649-728 | The method is the transaction of the machine |
| PlanningUseCases.Planning.AnswerClarification | app/modules/clarification/application/answer.py:45-164 | The method is the transaction of the machine |
| PlanningUseCases.Planning.PrepareNextRevision | app/modules/planning/application/replan.py:117-235 | The method is the replan transaction of the machine: redelivery, limit, existing revision, new revision |
| PlanningUseCases.Planning.SetUnfinishedStatus | app/modules/planning/application/replan.py:172-174 | Only tasks that have not succeeded change |
| ReplanTransactions.PrepareKeeps | app/modules/planning/application/replan.py:117-235 | Preparing a revision keeps the database invariant and never raises for a recorded request, also when the inbox was read before another worker recorded the event |
| ReplanTransactions.OneRevisionPerRequest | app/modules/planning/application/replan.py:134-235 | Once a request has been prepared, no worker that missed its inbox row adds a plan; below the limit it changes nothing |
| ReplanTransactions.PrepareLimit | app/modules/planning/application/replan.py:166-185 | At the limit the plan and its unfinished tasks fail and the invariant stays |
| ReplanTransactions.RevisionChain | app/modules/planning/application/replan.py:206-227 | Every earlier revision exists and is superseded |
| ReplanTransactions.SupersededExactly | app/modules/planning/application/replan.py:206-208 | A plan is superseded exactly when the next revision exists, whose parent it is |
| ReplanTransactions.ResolveKeeps | app/modules/aggregation/application/aggregate_plan.py:218-238 | Resolving an answered clarification keeps the invariant |
| ReplanTransactions.RecordProcessedKeeps | app/modules/messaging/worker/dispatcher.py:111-128 | Recording an aggregation event keeps the invariant |
| MessagingWorkers.OutboxPublisher.LoadBatch | app/modules/messaging/application/outbox.py:93-117 | A batch holds due events without repetition; when it is not full, all due events |
| MessagingWorkers.OutboxPublisher.PublishBatch | app/modules/messaging/application/outbox.py:59-91 | The outbox after the loop, the published messages in order, and their count; what a mark does over runs is `OutboxLaws.DeadAfterTenFailures` |
| MessagingWorkers.MarkAllEffect | app/modules/messaging/application/outbox.py:119-146 | Every event of the batch is marked once, as its own publication ended, by the mark that `OutboxLaws.StepRecords` describes; all others stay |
| MessagingWorkers.Inbox.RecordOnce | app/modules/messaging/application/inbox.py:10-44 | The first call for an event adds its row, later ones change nothing |
| MessagingWorkers.Inbox.RecordProcessedEvent | app/modules/messaging/worker/dispatcher.py:99-128 | The row of an aggregated event is added once |
| MessagingWorkers.Inbox.Resolve | app/modules/aggregation/application/aggregate_plan.py:218-238 | Only an answered request of the parent plan becomes resolved |
| MessagingWorkers.StreamWorker.DispatchMessages | app/modules/messaging/infrastructure/redis_streams.py:199-222 | Exactly the messages before the first one whose handler raises are acknowledged |
| MessagingWorkers.StreamWorker.RunOnce | app/modules/messaging/infrastructure/redis_streams.py:111-148 | Nothing is acknowledged unless its handler returned; abandoned entries come first, then the backlog, then new ones |
| ContextFacts.FactsMatchLog | app/modules/context/application/resource_service.py:133-227 | A row exists exactly when its key was seen; SEEN occurs once; use_count counts the uses; active holds exactly when the last event is not a removal; data and last_seen_at are those of the last use |
| ContextFacts.UseCountIsUses | app/modules/context/infrastructure/persistence/repository.py:376-423 | use_count is the number of SEEN and REFRESHED events |
| ContextFacts.SeenOnce | app/modules/context/application/resource_service.py:150-185 | A key in use has exactly one SEEN event |
| ContextFacts.ActiveIsLastEvent | app/modules/context/infrastructure/persistence/repository.py:425-443 | active is decided by the last event |
| ContextFacts.DataIsLastUse | app/modules/context/infrastructure/persistence/repository.py:376-423 | The data is that of the last use |
| ContextFacts.UpdateConsistent | app/modules/context/application/resource_service.py:112-227 | An update keeps the table equal to the replay of the log |
| ContextFacts.RelatedRow | app/modules/context/application/resource_service.py:133-185 | A related resource is active and just seen after the update |
| ContextFacts.RemovedRow | app/modules/context/application/resource_service.py:186-215 | A removed resource is not active after the update |
| ContextFacts.OtherRow | app/modules/context/application/resource_service.py:112-227 | All other rows stay |
| ContextFacts.SplitKeyExactly | app/modules/context/application/resource_service.py:47-69 | Splitting succeeds exactly on a valid type joined with a valid id, and gives them back |
| ContextFacts.ContextStore.ApplyInTransaction | app/modules/context/application/resource_service.py:112-227 | Table and log change together by the events of the update, an error changes nothing, and the version counts the non-empty updates |
| ResourceCache.HitsAreFaithful | app/modules/context/infrastructure/cache/redis_resource_queue.py:148-209 | In every interleaving of commits, late, lost or repeated refreshes, warm-ups and invalidations, a hit for version v serves the facts of version v: distinct keys, within capacity, in order of last_seen_at, the most recent slice; the whole active set if it never overflowed |
| ResourceCache.CurrentVersionHits | app/modules/context/infrastructure/cache/redis_resource_queue.py:148-209 | A cache that carries a version hits for it |
| ResourceCache.RunKeeps | app/modules/context/infrastructure/cache/redis_resource_queue.py:20-89 | The cache stays faithful to the history at its own version |
| ResourceCache.RefreshKeeps | app/modules/context/infrastructure/cache/redis_resource_queue.py:20-71 | A refresh applied to a faithful cache gives a cache faithful to the next version |
| ResourceCache.RefreshComplete | app/modules/context/infrastructure/cache/redis_resource_queue.py:20-71 | A complete cache stays complete while the active set fits |
| ResourceCache.ReplaceKeeps | app/modules/context/infrastructure/cache/redis_resource_queue.py:73-89 | A warm-up gives a faithful cache |
| ResourceCache.ReplaceComplete | app/modules/context/application/resource_service.py:331-380 | A warm-up of an active set that fits is complete |
| ResourceCache.MessageDescribes | app/modules/context/application/resource_service.py:112-227 | The refresh built by the transaction describes exactly the change of the facts |
| ResourceCache.RefreshAdvancesIff | app/modules/context/infrastructure/cache/redis_resource_queue.py:20-71 | A refresh is applied exactly at its own version, or at version 0 on an empty cache; else it changes nothing |
| ResourceCache.InOrderReachesNewest | app/modules/context/infrastructure/cache/redis_resource_queue.py:20-71 | From any run, when all refreshes arrive in order on an empty cache, it reaches the newest version and hits for it |
| ResourceQueue.RedisQueue.Refresh | app/modules/context/infrastructure/cache/redis_resource_queue.py:20-71 | The Lua steps: compare the version, move keys to the tail, drop removed ones, trim the head, bump the version |
| ResourceQueue.RedisQueue.Replace | app/modules/context/infrastructure/cache/redis_resource_queue.py:73-89 | The Lua steps of a full replacement |
| ResourceQueue.RedisQueue.Get | app/modules/context/infrastructure/cache/redis_resource_queue.py:148-209 | A hit needs the expected version and a hash that covers the list |
| ResourceQueue.RedisQueue.Invalidate | app/modules/context/infrastructure/cache/redis_resource_queue.py:286-300 | Nothing is left |
| ResourceQueue.LoadForWarmup | app/modules/context/application/resource_service.py:331-380 | The most recent active resources, at most the capacity, oldest first |
| ContextTurns.RedeliveryRepeatsIffNotReopened | app/modules/context/application/context_service.py:392-576 | After any run, completing a completed turn again changes nothing and reports the same chains, whatever command or chain id is proposed, if and only if the turn has not been reopened since its completion |
| ContextTurns.NodesOfOneTransaction | app/modules/context/application/context_service.py:408-421 | Until the turn is reopened, all its nodes are those of the transaction that completed it |
| ContextTurns.ReopenedTurnIsCompletedTwice | app/modules/planning/application/use_cases.py:590-598 | The failing run: a completed turn that planning makes processing again is completed once more, on a second new chain |
| ContextTurns.FailedTurnRefusesRedelivery | app/modules/planning/application/replan.py:175-178 | A completed turn that planning makes failed answers a redelivery with a state conflict instead of its chains |
| ContextTurns.SequencesAreContiguous | app/modules/context/infrastructure/persistence/repository.py:345-352 | In every run the sequence numbers of a chain are exactly 0..n-1 and a turn has at most one node on it, reopened or not |
| ContextTurns.ChainsMatchTheirLogs | app/modules/context/application/context_service.py:513-557 | In every run every chain's facts are the replay of its log, its resource_version is the number of turns that changed them, and each of these turns has a node on the chain |
| ContextTurns.CommitSteps | app/modules/context/application/context_service.py:392-576 | A completion links the turn to exactly its target chains beside the ones it had, adds nodes of that turn only, and touches no other turn |
| ContextTurns.CompleteKeeps | app/modules/context/application/context_service.py:392-576 | A completion keeps the invariant of the store |
| ContextTurnService.ContextService.CompleteTurnInTransaction | app/modules/context/application/context_service.py:392-576 | The method is the transaction of the runs, errors in the source's order |
| ContextTurnService.ContextService.CheckCommand | app/modules/context/application/context_service.py:422-491 | The first refusal of a command |
| ContextTurnService.ContextService.CheckExisting | app/modules/context/application/context_service.py:471-492 | The first target chain that is missing, foreign or archived |
| ContextTurnService.ValidateChainUpdates | app/modules/context/application/context_service.py:578-637 | Updates pass exactly when they are valid; the map holds each under its chain |
| ContextTurnService.GetNextSequence | app/modules/context/infrastructure/persistence/repository.py:345-352 | One more than the greatest sequence number of the chain, 0 for an empty one |
| TurnOutcomes.CompletesIff | app/modules/context/application/context_service.py:422-492 | A turn that is not completed yet is completed exactly if: it is in a state that allows it, its selection record exists, a new chain is asked for as it must be and is new, every update is of a target, for tasks of the turn and valid, no chain is updated twice, every read chain is there, of this conversation and not archived, and no target has a node of the turn |
| TurnOutcomes.RefusalChangesNothing | app/modules/context/application/context_service.py:392-492 | Every other call changes nothing, and reports success only for a completed turn |
| TurnOutcomes.CompletionOutcome | app/modules/context/application/context_service.py:392-576 | A completion gives every target one node of this turn, which holds the tasks and the resource keys of its update, each once, or nothing without an update; it makes the targets active now and touches nothing else |
| Aggregation.CompletedPassesChecks | app/modules/aggregation/application/aggregate_plan.py:139-169 | In every run, a completed plan passes all checks but possibly the one on the selection record |
| Aggregation.OneSuccess | app/modules/aggregation/application/aggregate_plan.py:152-162 | Every task of a completed plan has exactly one successful execution, its last attempt; the others are compensated or failed |
| Aggregation.LoadSnapshot | app/modules/aggregation/application/aggregate_plan.py:127-193 | Every error has its exact condition; tasks by sequence; the references are, without repetition, exactly those of the last successful execution of each task |
| Common.DedupIsFirstOccurrences | app/modules/aggregation/application/aggregate_plan.py:171-178 | What removes repetitions keeps every value and the order of the first occurrences |
| AggregationCommand.OnlyChainsAreRefused | app/modules/aggregation/application/aggregate_plan.py:80-121 | The command that an aggregation sends is refused for no other reason than a read chain that is gone, archived or foreign, or a node that a reopened turn already has on a target |
| AggregationCommand.ReportedResourcesAreUsed | app/modules/aggregation/application/aggregate_plan.py:103-121 | After the completion every reported resource is in use on every target chain |
| AggregationCommand.CompletionAttaches | app/modules/context/application/context_service.py:513-557 | A completion gives every target chain its own update, once |
| AggregationCommand.ResultsAreRecorded | app/modules/aggregation/application/aggregate_plan.py:80-121 | After the completion the turn holds the tasks of the plan, and every new node is on a chain that was read, or on the new one, and holds these tasks and all reported references |
| AggregationCommand.ParsedKeyIsRef | app/modules/aggregation/application/aggregate_plan.py:195-216 | Parsing a reference and building its key give the reference back |
| AggregationCommand.TargetsOfCommand | app/modules/context/application/attribution_policy.py:8-37 | The targets are the read chains, or the new chain when there is none |
| DocumentChunks.ClaimsAreSettledOnce | app/modules/document/application/use_cases/build_chunks.py:186-469 | Over every run, an operation's claims are its completions plus its compensations, plus one while it owns the document: each claim leads to at most one completion |
| DocumentChunks.BlocksComeWhole | app/modules/document/application/use_cases/build_chunks.py:365-435 | Over every run the stored blocks are exactly those of the last completion |
| DocumentChunks.LateWorkChangesNothing | app/modules/document/application/use_cases/build_chunks.py:452-469 | Until it claims again, an operation that does not own the document changes nothing by any later completion or compensation |
| DocumentChunks.OwnerIsUndisturbed | app/modules/document/application/use_cases/build_chunks.py:198-210 | Until the owner completes or compensates, no other step takes the document away or touches its blocks |
| DocumentChunks.CompletionStores | app/modules/document/application/use_cases/build_chunks.py:365-435 | A completion takes effect exactly for the owner of a usable document; it stores its own build whole and releases the document |
| DocumentChunks.ChunkedAgainIffReprocessed | app/modules/document/application/use_cases/build_chunks.py:203-229 | Over every run, a document with stored children that is failed or past chunking enters chunking again if and only if an operation is accepted for processing, finishes it, and a later claim is accepted |
| DocumentChunks.LeavesPastChunkingIff | app/modules/document/application/use_cases/build_chunks.py:221-229 | A single step opens that way exactly when it starts to process a failed, unowned, usable document |
| DocumentChunks.BlocksStayWithoutReprocessing | app/modules/document/application/use_cases/build_chunks.py:221-229 | Until then its blocks stay |
| DocumentChunks.ReprocessingLeadsBack | app/modules/document/application/use_cases/build_chunks.py:221-229 | Such a run exists from every failed document that nobody owns, with the old children still stored when it is claimed |
| DocumentChunks.RetryAfterCompensation | app/modules/document/application/use_cases/build_chunks.py:221-229 | After a compensation the next claim is accepted exactly when no children are stored |
| DocumentChunks.ChunkedDocument.ClaimChunking | app/modules/document/application/use_cases/build_chunks.py:186-275 | The claim, errors in the source's order |
| DocumentChunks.ChunkedDocument.FinishChunking | app/modules/document/application/use_cases/build_chunks.py:309-435 | Validation, then completion |
| DocumentChunks.ChunkedDocument.CompleteChunking | app/modules/document/application/use_cases/build_chunks.py:365-435 | Old blocks are replaced, the status moves on, the owner is released; a refusal changes nothing |
| DocumentChunks.ChunkedDocument.FailChunking | app/modules/document/application/use_cases/build_chunks.py:438-469 | The compensator changes the row exactly when the operation owns the document |
| DocumentChunks.ClaimOutcome | app/modules/document/application/use_cases/build_chunks.py:186-275 | A document is claimed exactly if nobody owns it, it is cleaned, stored and in use, and it is processed, or failed without children; a refused claim changes nothing |
| DocumentChunks.CompletionOutcome | app/modules/document/application/use_cases/build_chunks.py:365-435 | A completion is accepted exactly for the owner of a stored document in use that is being chunked, with a valid build |
| DocumentChunks.CompensationOutcome | app/modules/document/application/use_cases/build_chunks.py:438-469 | A compensation is accepted exactly for the owner of a document that is being chunked; the blocks stay |
| ChunkBuild.StoredExactlyOnce | app/modules/document/application/use_cases/build_chunks.py:392-419 | Every group of a valid build is stored in order under the parent it was built for, nothing under another parent, and as many rows as children |
| ChunkBuild.NothingLostIff | app/modules/document/application/use_cases/build_chunks.py:342-346 | With distinct parents, children are lost exactly when their group names no parent |
| ChunkBuild.CountIsZero | app/modules/document/application/use_cases/build_chunks.py:332-340 | No child at all is counted exactly when every group is empty |
| ChunkBuild.Validate | app/modules/document/application/use_cases/build_chunks.py:316-362 | The outcome of the checks |
| ChunkBuild.OutcomeIsUnique | app/modules/document/application/use_cases/build_chunks.py:316-362 | The conditions of the outcomes exclude each other, so each is exact |
| ChunkBuild.CreateBlocks | app/modules/document/application/use_cases/build_chunks.py:392-419 | The two loops build the specified rows |
| Common.SizeShowsRepetition | app/modules/document/application/use_cases/build_chunks.py:324-330 | Comparing a list with the size of its set finds exactly the repetitions |
| ToolPairing.Extract | app/agents/collectors.py:179-244 | Extraction succeeds exactly when calls and outputs are well formed and in bijection by id; results follow the outputs, each with its own call |
| ToolPairing.PairingIsBijective | app/agents/collectors.py:238-244 | As many results as calls, with distinct ids: none is lost or duplicated |
| ToolPairing.CallsComplete | app/agents/collectors.py:182-184 | The first loop looks at exactly the calls |
| ToolPairing.OutputsComplete | app/agents/collectors.py:199-201 | The second loop looks at exactly the outputs |
| ToolPairing.CollectCalls | app/agents/collectors.py:181-195 | The call map exists exactly for complete calls with distinct ids |
| ToolPairing.ExtractCollectorResults | app/agents/collectors.py:247-303 | The same for collector runs, where every result also names the collector that was called |
| IsoTimestamps.IsoOrderIsTimeOrder | app/modules/operations/infrastructure/jsonl_repository.py:272-281 | For all UTC timestamps the string order of the ISO text is the order in time, and equal texts are equal times, whether the fraction is present or not |
| IsoTimestamps.OrdinalGrows | app/modules/operations/infrastructure/jsonl_repository.py:272-281 | Later calendar days have greater day numbers, leap years included |
| IsoTimestamps.SuffixOrder | app/modules/operations/infrastructure/jsonl_repository.py:272-281 | A missing fraction sorts before every fraction |
| Base64Url.RoundTrip | app/modules/operations/infrastructure/jsonl_repository.py:331-368 | Stripping the padding of URL-safe Base64 (section 5 of RFC 4648) and restoring it on decoding lose nothing |
| Base64Url.KnownVectors | app/modules/operations/infrastructure/jsonl_repository.py:331-368 | The encoding agrees with the test vectors of section 10 of RFC 4648 for one, two and three bytes |
| Base64Url.UrlSafeSymbols | app/modules/operations/infrastructure/jsonl_repository.py:331-368 | Values 62 and 63 are written as hyphen and underscore |
| LogRecords.ReadSources | app/modules/operations/infrastructure/jsonl_repository.py:99-109 | The loops over sources, files and lines read the specified events |
| LogRecords.ReadingIsExact | app/modules/operations/infrastructure/jsonl_repository.py:188-243 | Reading finds exactly the matching lines, each under its key |
| LogRecords.KeysAreUniqueIff | app/modules/operations/infrastructure/jsonl_repository.py:272-281 | The exact condition on a configuration: keys are unique whatever the files hold if and only if no two files agree in both source id and file name |
| LogRecords.ContentKeysIff | app/modules/operations/infrastructure/jsonl_repository.py:272-281 | For given contents: keys are unique exactly when no two matching lines of different files have the same key |
| LogRecords.KeysAreUnique | app/modules/operations/infrastructure/jsonl_repository.py:272-281 | Without two such files, keys are unique for every query |
| LogRecords.AmbiguousRepeatsKeys | app/modules/operations/infrastructure/jsonl_repository.py:272-281 | With two such files, a key is repeated as soon as every file holds the same first line |
| LogRecords.DistinctIdsSuffice | app/modules/operations/infrastructure/jsonl_repository.py:272-281 | Distinct source ids are enough, a directory holding no two files of one name |
| LogRecords.AppendsKeepEvents | app/modules/operations/infrastructure/jsonl_repository.py:214-222 | Appends and new files change no event's key |
| LogRecords.RangeIsInclusive | app/modules/operations/infrastructure/jsonl_repository.py:214-236 | A query returns exactly the events of its range, both ends included, that its predicate keeps |
| LogPaging.WalkIsOrdered | app/modules/operations/infrastructure/jsonl_repository.py:111-136 | Pages that follow the cursor are disjoint and in order, even if the lists grow |
| LogPaging.WalkIsComplete | app/modules/operations/infrastructure/jsonl_repository.py:111-136 | They return every event of the first list |
| LogPaging.WalkEnds | app/modules/operations/infrastructure/jsonl_repository.py:121-132 | The cursor is absent after at most one call more than the full pages of the last list |
| LogPaging.CompleteIffKeysAreUnique | app/modules/operations/infrastructure/jsonl_repository.py:114-119 | For every page size and direction the pages hold as many events as there are, exactly when no key occurs twice |
| LogPaging.SortOrders | app/modules/operations/infrastructure/jsonl_repository.py:112 | The sort orders by key in either direction |
| LogPaging.PageHolds | app/modules/operations/infrastructure/jsonl_repository.py:111-136 | A page is in order and skips nothing before the key of the next page |
| LogPaging.KeyOrderIsLexicographic | app/modules/operations/infrastructure/jsonl_repository.py:272-281 | Events come in the order of their times; only equal times are told apart by id, then source, file and line |
| LogCursor.PaginationIsExact | app/modules/operations/infrastructure/jsonl_repository.py:67-136 | Following next_cursor until it is absent returns every matching event present at the first call exactly once, in order and in order of time, in either direction and for every page size, while files grow; and the run ends |
| LogCursor.CursorRoundTrip | app/modules/operations/infrastructure/jsonl_repository.py:316-389 | A cursor leads back to its key in its own direction over its own sources and is refused otherwise |
| LogCursor.SignatureTellsIff | app/modules/operations/infrastructure/jsonl_repository.py:391-397 | The signature of a configuration tells it apart from all others exactly when no id and no prefix of it holds a colon |
| LogCursor.Scan | app/modules/operations/infrastructure/jsonl_repository.py:67-136 | One call: the limit and cursor errors, the page, and the next cursor |
| LogCursor.FollowIsWalk | app/modules/operations/infrastructure/jsonl_repository.py:96-97 | The run through encoded cursors is the walk over keys |

## Left out

- WorkflowTheorems.NoLostDriver: says nothing about a plan whose compensation is locked, which no event can move, and nothing about fairness: that Redis and the workers do deliver is not modelled.
- Planner runs: they hold no lease in the model, so any number of them may act on one plan at any time.
- WorkflowTheorems.ReplanIsDriven: a revision in planning is not covered, because a replan event delivered again within the planner's lease is dropped; whether the lease is over is a parameter of the step.
- WorkflowBounds.CompensationFailuresAreBounded: bounds recorded failures, not the attempt counter, which has no bound (`CompensationAttempts.CounterHasNoBound`).
- WorkflowBounds.WorkIsBounded: the capability registry is total over the three shipped capabilities.
- Retry delays: a retrying task becomes pending on any wakeup, due or not, so no delay of a retry is claimed.
- TaskRuntimeService.GetNextRunnable: the repository query is not part of this model; its contract is taken from its use, with ties broken by sequence.
- PlanningUseCases.Planning.SetUnfinishedStatus: the repository query is not part of this model; it changes the tasks that have not succeeded.
- PlanningTransactions.CreatePlanKeeps: creates the first revision of a fresh workflow, as its only caller does.
- DraftLaws.PublishedAsRequested: the input of a task (its document) is not modelled.
- RetryLaws.ExpiredLeaseIsRetried: is about a compensation that succeeds while nobody else touches the plan; what a failing one leads to is `RuntimeOutcomes.AttemptFailsOutcome`.
- OutboxLaws.DeadAfterTenFailures: counts recorded outcomes; a publisher that crashes before recording one leaves the event pending.
- MessagingWorkers.OutboxPublisher.LoadBatch: the order of the events within a batch is not modelled.
- MessagingWorkers.StreamWorker.RunOnce: the message lists that Redis returns and the outcomes of the handlers are parameters.
- ResourceQueue.RedisQueue.Get: the three Redis calls are one step, as they are under the conversation lock; the loss of single Redis keys is not modelled.
- ResourceQueue.LoadForWarmup: resources with equal `last_seen_at` may come in any order.
- ResourceCache.HitsAreFaithful: after an overflow the cache is the most recent slice, which can be shorter than a fresh warm-up; the times of a chain's updates do not go back, so a clock that is set back is not modelled.
- ContextTurnService.ContextService.CheckCommand: the different errors of a chain update are one error.
- ContextTurns.RedeliveryRepeatsIffNotReopened: status changes by other modules are steps; besides making a turn processing or failed, which they do whatever its state, they change only turns that are not completed.
- Aggregation.LoadSnapshot: summaries and the assistant's text are not modelled.
- AggregationCommand.ReportedResourcesAreUsed: takes the selection record and the state of the turn as given.
- ChunkBuild.CreateBlocks: block codes, hashes and the fields copied from the document are not modelled.
- DocumentChunks.ChunkedAgainIffReprocessed: the vector status of children is not modelled, so indexing is claimed whenever there are children.
- DocumentChunks.LateWorkChangesNothing: is about an operation that does not own the document; one that never claimed it may still claim it later.
- DocumentChunks.OwnerIsUndisturbed: the two transactions that release a failed stage are one step, which looks at status and owner.
- ToolPairing.Extract: the texts of the errors and the parsing of arguments and outputs are not modelled; content that lacks a field or does not parse is absent content, reported before a repeated id. The duplicate-free reference list of a collector is the one of `Common.Dedup`.
- Base64Url.RoundTrip: a decoder that skips characters outside the alphabet is not modelled; such text is refused.
- LogCursor.CursorRoundTrip: JSON is any pair of functions of which loading inverts dumping; the types of a foreign payload are reduced to whether its key is well formed.
- LogRecords.ReadSources: directory checks, symbolic links, read errors and the parsing of lines are not modelled; a line holds an event or nothing. Local times are taken as already converted to UTC.
- LogPaging.SortOrders: stands for the sort of the Python library, as a stable insertion sort.
- Agents, prompts, graph wiring and model adapters: behaviour of external libraries and models.
- Routers, schemas, dependency containers, settings and lifespan: wiring.
- SQL queries, migrations and Redis client calls: replaced by maps, unique constraints and atomic steps.
- Files, format conversion, embedding and vector store effects: outcomes of executors and compensators.
- UUID generation: ids are fresh.
- Loggers, search scoring, statistics and read-only listings: simple filters.
