/**
  The rows of the workflow tables. Every row of `tasks`, `task_dependencies` and
  `task_executions` carries the identifier of its plan, so these tables are kept
  partitioned by plan: a `PlanRec` is the plan's row together with its partition.
 */
module WorkflowRows {
  import opened Common
  import opened PlanDag

  type PlanId = int
  type WorkflowId = int
  type TurnId = int
  type ConversationId = int
  type ExecutionId = int
  type OperationId = int
  type AgentRunId = int
  type EventId = int

  datatype PlanStatus =
    | Planning | Ready | Running | Completed | Unsupported | NeedsClarification
    | RetryPending | ReplanPending | PlanFailed | PlanCancelled | Superseded

  datatype TaskStatus =
    | TaskDraft | Pending | TaskRunning | RetryWait | Succeeded | Blocked | TaskFailed | TaskCancelled | TaskSuperseded

  datatype ExecutionStatus =
    | ExecRunning | CompensationRequired | CompensationLocked | Compensated | ExecSucceeded | ExecFailed

  datatype Capability = ProcessDocument | BuildDocumentChunks | IndexDocumentVectors

  /** One recorded compensation failure; `delay` is None when the failure locked the execution. */
  datatype CompensationFailure = CompensationFailure(attempt: nat, delay: Option<nat>)

  datatype Task = Task(
    ref: Ref, capability: Capability, dependsOn: seq<Ref>, sequence: int, status: TaskStatus,
    attemptCount: nat, maxAttempts: nat, startedAt: int)

  /** `claimedBy` and `failures` are history: they record facts that the transactions leave
      behind in other tables or in the log, and no transaction reads them. */
  datatype Execution = Execution(
    task: TaskId, attempt: nat, status: ExecutionStatus, operation: OperationId, agentRun: AgentRunId,
    errorCode: string, retryable: bool, blocked: bool, resourceRefs: seq<string>,
    compensationAttempts: nat, claimedBy: Option<EventId>, failures: seq<CompensationFailure>)

  datatype PlanRec = PlanRec(
    workflow: WorkflowId, turn: TurnId, parent: Option<PlanId>, revision: nat,
    status: PlanStatus, current: Option<TaskId>,
    tasks: map<TaskId, Task>, deps: set<(TaskId, TaskId)>, executions: map<ExecutionId, Execution>)

  datatype Definition = Definition(maxAttempts: nat, timeout: nat, sideEffect: bool)

  datatype Config = Config(
    process: Definition, chunks: Definition, index: Definition,
    retryDelay: int, compensationDelay: nat, compensationMaxDelay: nat, maxCompensation: nat)
  {
    function Of(c: Capability): Definition {
      match c
      case ProcessDocument => process
      case BuildDocumentChunks => chunks
      case IndexDocumentVectors => index
    }

    /** A task is always allowed one attempt, whatever the definition says. */
    function Limit(c: Capability): nat {
      if Of(c).maxAttempts < 1 then 1 else Of(c).maxAttempts
    }
  }

  /** The shipped registry and the default delays. */
  const SHIPPED := Config(
    Definition(3, 300, true), Definition(3, 300, true), Definition(3, 900, true), 30, 30, 300, 5)

  const MAX_TASKS_PER_PLAN: nat := 10
  const MAX_PLAN_REVISIONS: nat := 3
  const EXECUTION_LEASE_EXPIRED := "execution_lease_expired"

  /** What a worker carries out of a claim: task identity and ownership tokens. */
  datatype Snapshot = Snapshot(
    plan: PlanId, task: TaskId, execution: ExecutionId, attempt: nat, operation: OperationId, agentRun: AgentRunId)

  datatype TaskError = TaskError(code: string, retryable: bool, blocked: bool)

  datatype ReplanTrigger = TaskBlocked | TaskTerminalFailure | PlannerSystemFailure | ClarificationAnswered

  /** The outbox row that a transaction on a plan adds, before it gets its identifier. */
  datatype Emission =
    | EmitWakeup(execution: Option<ExecutionId>, operation: Option<OperationId>, at: int)
    | EmitReplan(trigger: ReplanTrigger)
    | EmitAggregation
}
