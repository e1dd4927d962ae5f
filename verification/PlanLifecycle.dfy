/**
  The transactions of the task runtime on one plan, as functions from the plan's rows to
  the rows that are committed, and the invariant that every one of them keeps.
 */
module PlanLifecycle {
  import opened Common
  import opened PlanDag
  import opened WorkflowRows

  /** The outcome of one transaction: an exception and a rollback, or a commit. */
  datatype Tx<+T> = Raised | Committed(rec: PlanRec, emit: Option<Emission>, out: T)

  datatype ClaimOutcome =
    | Terminal | AlreadyRunning | NoTask
    | Locked(snapshot: Snapshot) | Recover(snapshot: Snapshot) | Claimed(snapshot: Snapshot)

  datatype NewIds = NewIds(execution: ExecutionId, operation: OperationId, agentRun: AgentRunId)

  // ---------- Queries ----------

  predicate Active(s: ExecutionStatus) {
    s == ExecRunning || s == CompensationRequired || s == CompensationLocked
  }

  predicate Released(s: ExecutionStatus) {
    s == Compensated || s == ExecFailed
  }

  predicate Open(s: PlanStatus) {
    s == Ready || s == Running
  }

  predicate Unpublished(s: PlanStatus) {
    s == Planning || s == Unsupported || s == NeedsClarification || s == RetryPending
  }

  ghost predicate Runnable(rec: PlanRec, t: TaskId) {
    && t in rec.tasks && rec.tasks[t].status == Pending
    && forall u :: (t, u) in rec.deps ==> u in rec.tasks && rec.tasks[u].status == Succeeded
  }

  predicate Before(rec: PlanRec, t: TaskId, u: TaskId)
    requires t in rec.tasks && u in rec.tasks
  {
    rec.tasks[t].sequence < rec.tasks[u].sequence || (rec.tasks[t].sequence == rec.tasks[u].sequence && t <= u)
  }

  /** The pending task of lowest sequence among those whose dependencies have all succeeded. */
  ghost predicate FirstRunnable(rec: PlanRec, t: TaskId) {
    Runnable(rec, t) && forall u :: Runnable(rec, u) ==> Before(rec, t, u)
  }

  ghost function NextRunnable(rec: PlanRec): (r: Option<TaskId>)
    ensures r.Some? ==> FirstRunnable(rec, r.value)
  {
    if t :| FirstRunnable(rec, t) then Some(t) else None
  }

  /** The execution of t with the highest attempt number. */
  ghost predicate IsLatest(rec: PlanRec, t: TaskId, x: ExecutionId) {
    && x in rec.executions && rec.executions[x].task == t
    && forall y :: y in rec.executions && rec.executions[y].task == t ==>
         rec.executions[y].attempt <= rec.executions[x].attempt
  }

  ghost function Latest(rec: PlanRec, t: TaskId): (r: Option<ExecutionId>)
    ensures r.Some? ==> IsLatest(rec, t, r.value)
  {
    if x :| IsLatest(rec, t, x) then Some(x) else None
  }

  function SnapshotOf(p: PlanId, x: ExecutionId, e: Execution): (s: Snapshot) {
    Snapshot(p, e.task, x, e.attempt, e.operation, e.agentRun)
  }

  // ---------- Row updates ----------

  function SetTask(rec: PlanRec, t: TaskId, row: Task): PlanRec {
    rec.(tasks := rec.tasks[t := row])
  }

  function SetExecution(rec: PlanRec, x: ExecutionId, row: Execution): PlanRec {
    rec.(executions := rec.executions[x := row])
  }

  /** Every retrying task becomes pending again, due or not. */
  function Requeue(rec: PlanRec): PlanRec {
    rec.(tasks := map t | t in rec.tasks ::
                    if rec.tasks[t].status == RetryWait then rec.tasks[t].(status := Pending) else rec.tasks[t])
  }

  function StartAttempt(
    cfg: Config, rec: PlanRec, t: TaskId, ids: NewIds, event: Option<EventId>, now: int
  ): PlanRec
    requires t in rec.tasks
  {
    var task := rec.tasks[t];
    var started := task.(attemptCount := task.attemptCount + 1, maxAttempts := cfg.Of(task.capability).maxAttempts,
                         status := TaskRunning, startedAt := now);
    var row := Execution(t, task.attemptCount + 1, ExecRunning, ids.operation, ids.agentRun, "", false, false, [],
                         0, event, []);
    SetExecution(SetTask(rec, t, started), ids.execution, row).(status := Running, current := Some(t))
  }

  // ---------- Claim ----------

  /** What `_recover_stale_execution` finds for the current task. */
  datatype Stale = Inconsistent | InProgress | Found(execution: ExecutionId, rec: PlanRec)

  function RequireRow(e: Execution, error: TaskError): Execution {
    e.(status := CompensationRequired, errorCode := error.code, retryable := error.retryable, blocked := error.blocked)
  }

  const LEASE_ERROR := TaskError(EXECUTION_LEASE_EXPIRED, true, false)

  ghost function RecoverStale(cfg: Config, rec: PlanRec, t: TaskId, now: int): (r: Stale) {
    if t !in rec.tasks then Inconsistent
    else match Latest(rec, t)
      case None => Inconsistent
      case Some(x) =>
        var e := rec.executions[x];
        if e.status == CompensationLocked || e.status == CompensationRequired then Found(x, rec)
        else if e.status != ExecRunning then Inconsistent
        else if now < rec.tasks[t].startedAt + cfg.Of(rec.tasks[t].capability).timeout then InProgress
        else Found(x, SetExecution(rec, x, RequireRow(e, LEASE_ERROR)))
  }

  predicate Mismatch<T(==)>(wanted: Option<T>, actual: T) {
    wanted.Some? && wanted.value != actual
  }

  ghost function ClaimNext(
    cfg: Config, p: PlanId, rec: PlanRec, event: Option<EventId>,
    wantedExecution: Option<ExecutionId>, wantedOperation: Option<OperationId>, ids: NewIds, now: int
  ): (r: Tx<ClaimOutcome>) {
    if rec.status in {Completed, PlanFailed, PlanCancelled, Superseded, ReplanPending} then
      Committed(rec, None, Terminal)
    else if rec.current.Some? then
      match RecoverStale(cfg, rec, rec.current.value, now)
      case Inconsistent => Raised
      case InProgress => Committed(rec, None, AlreadyRunning)
      case Found(x, found) =>
        var e := found.executions[x];
        if Mismatch(wantedExecution, x) || Mismatch(wantedOperation, e.operation) then
          // the transaction commits only when there is an event to record
          Committed(if event.Some? then found else rec, None, Terminal)
        else if e.status == CompensationLocked then
          Committed(found, None, Locked(SnapshotOf(p, x, e)))
        else
          Committed(found, None, Recover(SnapshotOf(p, x, e)))
    else if wantedExecution.Some? || wantedOperation.Some? || !Open(rec.status) then
      Committed(rec, None, Terminal)
    else
      var ready := Requeue(rec);
      match NextRunnable(ready)
      case None => Committed(ready, None, NoTask)
      case Some(t) =>
        var started := StartAttempt(cfg, ready, t, ids, event, now);
        Committed(started, Some(EmitWakeup(None, None, now + cfg.Of(rec.tasks[t].capability).timeout)),
                  Claimed(SnapshotOf(p, ids.execution, started.executions[ids.execution])))
  }

  // ---------- Completion, failure and compensation ----------

  /** The token check before a running execution is completed or failed. */
  predicate OwnsRunning(rec: PlanRec, s: Snapshot) {
    && rec.current == Some(s.task)
    && s.task in rec.tasks && rec.tasks[s.task].status == TaskRunning
    && s.execution in rec.executions
    && var e := rec.executions[s.execution];
       e.status == ExecRunning && e.attempt == s.attempt && e.operation == s.operation && e.agentRun == s.agentRun
  }

  /** The token check before every step of a compensation. */
  predicate OwnsCompensation(rec: PlanRec, s: Snapshot) {
    && rec.current == Some(s.task)
    && s.task in rec.tasks && rec.tasks[s.task].status == TaskRunning
    && s.execution in rec.executions
    && var e := rec.executions[s.execution];
       e.status == CompensationRequired && e.attempt == s.attempt && e.operation == s.operation
  }

  ghost predicate SomeTaskIn(rec: PlanRec, s: set<TaskStatus>) {
    exists t :: t in rec.tasks && rec.tasks[t].status in s
  }

  ghost predicate AllSucceeded(rec: PlanRec) {
    forall t :: t in rec.tasks ==> rec.tasks[t].status == Succeeded
  }

  /** Task t and execution x reach their final rows and the plan lets go of t. */
  function Settle(rec: PlanRec, t: TaskId, x: ExecutionId, task: TaskStatus, row: Execution): PlanRec
    requires t in rec.tasks
  {
    SetExecution(SetTask(rec, t, rec.tasks[t].(status := task)), x, row).(current := None)
  }

  ghost function Complete(rec: PlanRec, s: Snapshot, refs: seq<string>, now: int): (r: Tx<()>) {
    if !OwnsRunning(rec, s) then Raised
    else
      var row := rec.executions[s.execution].(status := ExecSucceeded, resourceRefs := Dedup(refs));
      var done := Settle(rec, s.task, s.execution, Succeeded, row);
      if SomeTaskIn(done, {Pending, RetryWait}) then
        Committed(done, Some(EmitWakeup(None, None, now)), ())
      else if AllSucceeded(done) then
        Committed(done.(status := Completed), Some(EmitAggregation), ())
      else
        Committed(done, None, ())
  }

  /** Ownership is released: another attempt, or the plan waits for its next revision. */
  function Release(
    rec: PlanRec, t: TaskId, x: ExecutionId, row: Execution, again: TaskStatus, wakeAt: int
  ): (r: Tx<()>)
    requires t in rec.tasks
  {
    if row.retryable && rec.tasks[t].attemptCount < rec.tasks[t].maxAttempts then
      Committed(Settle(rec, t, x, again, row), Some(EmitWakeup(None, None, wakeAt)), ())
    else
      Committed(Settle(rec, t, x, if row.blocked then Blocked else TaskFailed, row).(status := ReplanPending),
                Some(EmitReplan(if row.blocked then TaskBlocked else TaskTerminalFailure)), ())
  }

  /** The failure of a capability without side effects. */
  function FailTask(cfg: Config, rec: PlanRec, s: Snapshot, error: TaskError, now: int): (r: Tx<()>) {
    if !OwnsRunning(rec, s) then Raised
    else
      var row := rec.executions[s.execution].(
        status := ExecFailed, errorCode := error.code, retryable := error.retryable, blocked := error.blocked);
      Release(rec, s.task, s.execution, row, RetryWait, now + cfg.retryDelay)
  }

  function RequireCompensation(rec: PlanRec, s: Snapshot, error: TaskError): (r: Tx<()>) {
    if !OwnsRunning(rec, s) then Raised
    else Committed(SetExecution(rec, s.execution, RequireRow(rec.executions[s.execution], error)), None, ())
  }

  /** A compensation attempt is counted before the compensator runs. */
  function BeginCompensation(rec: PlanRec, s: Snapshot): (r: Tx<nat>) {
    if !OwnsCompensation(rec, s) then Raised
    else
      var e := rec.executions[s.execution];
      Committed(SetExecution(rec, s.execution, e.(compensationAttempts := e.compensationAttempts + 1)), None,
                e.compensationAttempts + 1)
  }

  /** d * 2^n */
  function Doubled(d: nat, n: nat): nat {
    if n == 0 then d else 2 * Doubled(d, n - 1)
  }

  /** Exponential back-off with a cap, for the a-th attempt. */
  function Backoff(cfg: Config, a: nat): nat
    requires a >= 1
  {
    var delay := Doubled(cfg.compensationDelay, a - 1);
    if delay < cfg.compensationMaxDelay then delay else cfg.compensationMaxDelay
  }

  function FailCompensation(cfg: Config, rec: PlanRec, s: Snapshot, attempt: nat, now: int): (r: Tx<()>)
    requires attempt >= 1
  {
    if !OwnsCompensation(rec, s) || rec.executions[s.execution].compensationAttempts != attempt then Raised
    else
      var e := rec.executions[s.execution];
      if attempt >= cfg.maxCompensation then
        var row := e.(status := CompensationLocked, failures := e.failures + [CompensationFailure(attempt, None)]);
        Committed(SetExecution(rec, s.execution, row), None, ())
      else
        var delay := Backoff(cfg, attempt);
        var row := e.(failures := e.failures + [CompensationFailure(attempt, Some(delay))]);
        Committed(SetExecution(rec, s.execution, row),
                  Some(EmitWakeup(Some(s.execution), Some(s.operation), now + delay)), ())
  }

  function FinishCompensation(cfg: Config, rec: PlanRec, s: Snapshot, now: int): (r: Tx<()>) {
    if !OwnsCompensation(rec, s) then Raised
    else
      var row := rec.executions[s.execution].(status := Compensated);
      var stale := row.errorCode == EXECUTION_LEASE_EXPIRED;
      Release(rec, s.task, s.execution, row, if stale then Pending else RetryWait,
              if stale then now else now + cfg.retryDelay)
  }

  // ---------- The invariant of a plan ----------

  ghost predicate CurrentOk(rec: PlanRec) {
    && (rec.current.Some? ==> rec.current.value in rec.tasks && rec.status == Running)
    && forall t :: t in rec.tasks ==> (rec.tasks[t].status == TaskRunning <==> rec.current == Some(t))
  }

  ghost predicate StatusOk(rec: PlanRec) {
    && (Open(rec.status) ==> forall t :: t in rec.tasks ==>
          rec.tasks[t].status in {Pending, TaskRunning, RetryWait, Succeeded})
    && (Open(rec.status) && rec.current.None? ==> SomeTaskIn(rec, {Pending, RetryWait}))
    && (rec.status == Completed ==> rec.tasks != map[] && AllSucceeded(rec))
    && (forall t :: t in rec.tasks ==> (Unpublished(rec.status) <==> rec.tasks[t].status == TaskDraft))
    && (Unpublished(rec.status) ==> rec.deps == {} && rec.executions == map[])
  }

  ghost predicate HasAttempt(rec: PlanRec, t: TaskId, a: nat) {
    exists x :: x in rec.executions && rec.executions[x].task == t && rec.executions[x].attempt == a
  }

  /** The attempts of a task are numbered 1, 2, ..., attemptCount, each by one execution. */
  ghost predicate AttemptsOk(rec: PlanRec) {
    && (forall x :: x in rec.executions ==>
          && rec.executions[x].task in rec.tasks
          && 1 <= rec.executions[x].attempt <= rec.tasks[rec.executions[x].task].attemptCount)
    && (forall x, y :: x in rec.executions && y in rec.executions && x != y ==>
          rec.executions[x].task != rec.executions[y].task || rec.executions[x].attempt != rec.executions[y].attempt)
    && (forall t, a: nat :: t in rec.tasks && 1 <= a <= rec.tasks[t].attemptCount ==> HasAttempt(rec, t, a))
  }

  /** What the status of a task says about its last execution: only a retryable one is tried again. */
  predicate Agree(task: TaskStatus, e: Execution) {
    if task == TaskRunning then Active(e.status)
    else if task == Succeeded then e.status == ExecSucceeded
    else Released(e.status) && (task in {Pending, RetryWait} ==> e.retryable)
  }

  ghost predicate ExecutionsOk(rec: PlanRec) {
    forall x :: x in rec.executions && rec.executions[x].task in rec.tasks ==>
      var e := rec.executions[x];
      var task := rec.tasks[e.task];
      && (e.attempt < task.attemptCount ==> Released(e.status) && e.retryable)
      && (e.attempt == task.attemptCount ==> Agree(task.status, e))
  }

  predicate TaskBounded(cfg: Config, task: Task) {
    && task.attemptCount <= cfg.Limit(task.capability)
    && (task.status in {Pending, RetryWait} ==> task.attemptCount < cfg.Limit(task.capability))
    && (task.attemptCount > 0 ==> task.maxAttempts == cfg.Of(task.capability).maxAttempts)
    && (task.status == TaskDraft ==> task.attemptCount == 0)
    && (task.status in {TaskRunning, Succeeded} ==> task.attemptCount > 0)
  }

  ghost predicate BoundsOk(cfg: Config, rec: PlanRec) {
    forall t :: t in rec.tasks ==> TaskBounded(cfg, rec.tasks[t])
  }

  ghost predicate SequencesOk(rec: PlanRec) {
    && (forall t, u :: t in rec.tasks && u in rec.tasks && t != u ==> rec.tasks[t].sequence != rec.tasks[u].sequence)
    && (forall t :: t in rec.tasks && (Open(rec.status) || rec.tasks[t].attemptCount > 0) ==>
          1 <= rec.tasks[t].sequence <= MAX_TASKS_PER_PLAN)
  }

  ghost predicate IsRank(deps: set<(TaskId, TaskId)>, rank: map<TaskId, nat>) {
    forall t, u :: (t, u) in deps ==> t in rank && u in rank && rank[u] < rank[t]
  }

  ghost predicate Acyclic(deps: set<(TaskId, TaskId)>) {
    exists rank :: IsRank(deps, rank)
  }

  ghost predicate DepsOk(rec: PlanRec) {
    && (forall t, u :: (t, u) in rec.deps ==> t in rec.tasks && u in rec.tasks)
    && Acyclic(rec.deps)
  }

  /** No task has been started before everything it depends on had succeeded. */
  ghost predicate OrderOk(rec: PlanRec) {
    forall t, u :: (t, u) in rec.deps && t in rec.tasks && u in rec.tasks && rec.tasks[t].attemptCount > 0 ==>
      rec.tasks[u].status == Succeeded
  }

  /** Recorded compensation failures: increasing attempts, capped back-off, and a lock at the limit. */
  predicate FailuresOk(cfg: Config, e: Execution) {
    var f := e.failures;
    && (forall i :: 0 <= i < |f| ==> 1 <= f[i].attempt <= e.compensationAttempts)
    && (forall i, j :: 0 <= i < j < |f| ==> f[i].attempt < f[j].attempt)
    && (forall i :: 0 <= i < |f| ==>
          f[i].delay == if f[i].attempt >= cfg.maxCompensation then None else Some(Backoff(cfg, f[i].attempt)))
    && (forall i :: 0 <= i < |f| - 1 ==> f[i].attempt < cfg.maxCompensation)
    && (e.status == CompensationLocked <==> f != [] && f[|f| - 1].attempt >= cfg.maxCompensation)
  }

  ghost predicate HistoryOk(cfg: Config, rec: PlanRec) {
    forall x :: x in rec.executions ==> FailuresOk(cfg, rec.executions[x])
  }

  ghost predicate PlanInv(cfg: Config, rec: PlanRec) {
    && CurrentOk(rec) && StatusOk(rec)
    && AttemptsOk(rec) && ExecutionsOk(rec)
    && BoundsOk(cfg, rec) && SequencesOk(rec) && DepsOk(rec) && OrderOk(rec)
    && HistoryOk(cfg, rec)
  }

  // ---------- What a transaction may do to the rows it finds ----------

  /** Execution statuses only move forward. */
  predicate Forward(a: ExecutionStatus, b: ExecutionStatus) {
    || a == b
    || a == ExecRunning
    || (a == CompensationRequired && (b == CompensationLocked || b == Compensated))
  }

  predicate ExecutionEvolves(a: Execution, b: Execution) {
    && b.task == a.task && b.attempt == a.attempt && b.operation == a.operation && b.agentRun == a.agentRun
    && b.claimedBy == a.claimedBy
    && Forward(a.status, b.status)
    && a.failures <= b.failures && a.compensationAttempts <= b.compensationAttempts
    && (!Active(a.status) || a.status == CompensationLocked ==> b == a)
  }

  predicate TaskEvolves(a: Task, b: Task) {
    && b.ref == a.ref && b.capability == a.capability && b.dependsOn == a.dependsOn && b.sequence == a.sequence
    && a.attemptCount <= b.attemptCount
    && (a.status == Succeeded ==> b.status == Succeeded)
  }

  ghost predicate IsLocked(rec: PlanRec, x: ExecutionId) {
    x in rec.executions && rec.executions[x].status == CompensationLocked
  }

  ghost predicate Evolves(a: PlanRec, b: PlanRec) {
    && b.workflow == a.workflow && b.turn == a.turn && b.parent == a.parent && b.revision == a.revision
    && a.tasks.Keys <= b.tasks.Keys && a.executions.Keys <= b.executions.Keys
    && (!Unpublished(a.status) ==> !Unpublished(b.status) && b.tasks.Keys == a.tasks.Keys && b.deps == a.deps)
    && (forall t :: t in a.tasks ==> TaskEvolves(a.tasks[t], b.tasks[t]))
    && (forall x :: x in a.executions ==> ExecutionEvolves(a.executions[x], b.executions[x]))
    && (forall x :: IsLocked(a, x) ==>
          b.current == a.current && (a.executions[x].task in a.tasks ==> b.tasks[a.executions[x].task] == a.tasks[a.executions[x].task]))
  }
}
