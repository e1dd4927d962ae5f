/** Every transaction of the task runtime keeps the invariant of its plan. */
module PlanPreservation {
  import opened Common
  import opened PlanDag
  import opened WorkflowRows
  import opened PlanLifecycle

  /** The same tasks, attempts and executions: only statuses and payloads differ. */
  ghost predicate SameShape(a: PlanRec, b: PlanRec) {
    && a.tasks.Keys == b.tasks.Keys && a.executions.Keys == b.executions.Keys && a.deps == b.deps
    && (forall t :: t in a.tasks ==>
          a.tasks[t].attemptCount == b.tasks[t].attemptCount && a.tasks[t].sequence == b.tasks[t].sequence)
    && (forall x :: x in a.executions ==>
          a.executions[x].task == b.executions[x].task && a.executions[x].attempt == b.executions[x].attempt)
  }

  lemma ShapeKeepsAttempts(a: PlanRec, b: PlanRec)
    requires SameShape(a, b) && AttemptsOk(a)
    ensures AttemptsOk(b)
  {
    forall t, n: nat | t in b.tasks && 1 <= n <= b.tasks[t].attemptCount ensures HasAttempt(b, t, n) {
      assert HasAttempt(a, t, n);
      var x :| x in a.executions && a.executions[x].task == t && a.executions[x].attempt == n;
      assert x in b.executions;
    }
  }

  /** In a plan that satisfies the invariant an active execution is the last attempt of the current task. */
  lemma ActiveIsCurrent(rec: PlanRec, x: ExecutionId)
    requires CurrentOk(rec) && AttemptsOk(rec) && ExecutionsOk(rec)
    requires x in rec.executions && Active(rec.executions[x].status)
    ensures rec.current == Some(rec.executions[x].task) && rec.status == Running
    ensures IsLatest(rec, rec.executions[x].task, x)
    ensures rec.executions[x].attempt == rec.tasks[rec.executions[x].task].attemptCount
    ensures rec.tasks[rec.executions[x].task].status == TaskRunning
  {
    var e := rec.executions[x];
    assert e.attempt == rec.tasks[e.task].attemptCount;
    assert Agree(rec.tasks[e.task].status, e);
  }

  lemma LatestIs(rec: PlanRec, t: TaskId, x: ExecutionId)
    requires AttemptsOk(rec) && IsLatest(rec, t, x)
    ensures Latest(rec, t) == Some(x)
  {
    var y := Latest(rec, t);
    assert y.Some?;
  }

  lemma ActiveUnique(rec: PlanRec, x: ExecutionId, y: ExecutionId)
    requires CurrentOk(rec) && AttemptsOk(rec) && ExecutionsOk(rec)
    requires x in rec.executions && Active(rec.executions[x].status)
    requires y in rec.executions && Active(rec.executions[y].status)
    ensures x == y
  {
    ActiveIsCurrent(rec, x);
    ActiveIsCurrent(rec, y);
  }

  /** A current task has an active execution, its latest. */
  lemma CurrentHasActive(rec: PlanRec) returns (x: ExecutionId)
    requires CurrentOk(rec) && AttemptsOk(rec) && ExecutionsOk(rec) && rec.current.Some?
    requires rec.current.value in rec.tasks && rec.tasks[rec.current.value].attemptCount > 0
    ensures x in rec.executions && rec.executions[x].task == rec.current.value
    ensures Active(rec.executions[x].status) && Latest(rec, rec.current.value) == Some(x)
  {
    var t := rec.current.value;
    assert HasAttempt(rec, t, rec.tasks[t].attemptCount);
    x :| x in rec.executions && rec.executions[x].task == t && rec.executions[x].attempt == rec.tasks[t].attemptCount;
    LatestIs(rec, t, x);
  }

  lemma ShapeKeepsSequences(a: PlanRec, b: PlanRec)
    requires SameShape(a, b) && SequencesOk(a) && DepsOk(a) && (Open(b.status) ==> Open(a.status))
    ensures SequencesOk(b) && DepsOk(b)
  {
  }

  // ---------- Updates of one execution ----------

  /** An execution row may be replaced by a later one of the same execution. */
  lemma RowEvolves(rec: PlanRec, b: PlanRec, x: ExecutionId, row: Execution)
    requires CurrentOk(rec) && AttemptsOk(rec) && ExecutionsOk(rec)
    requires x in rec.executions && Active(rec.executions[x].status) && rec.executions[x].status != CompensationLocked
    requires ExecutionEvolves(rec.executions[x], row)
    requires b.executions == rec.executions[x := row] && b.tasks.Keys == rec.tasks.Keys
    requires forall t :: t in rec.tasks ==> TaskEvolves(rec.tasks[t], b.tasks[t])
    requires b.workflow == rec.workflow && b.turn == rec.turn && b.parent == rec.parent && b.revision == rec.revision
    requires b.deps == rec.deps && !Unpublished(b.status)
    ensures Evolves(rec, b)
  {
    forall y | IsLocked(rec, y) ensures false {
      ActiveUnique(rec, x, y);
    }
  }

  lemma RowHistory(cfg: Config, rec: PlanRec, b: PlanRec, x: ExecutionId, row: Execution)
    requires HistoryOk(cfg, rec) && FailuresOk(cfg, row) && b.executions == rec.executions[x := row]
    ensures HistoryOk(cfg, b)
  {
  }

  /** The current execution changes its row and stays active. */
  lemma ExecutionUpdateKeeps(cfg: Config, rec: PlanRec, x: ExecutionId, row: Execution)
    requires PlanInv(cfg, rec) && x in rec.executions && Active(rec.executions[x].status) && Active(row.status)
    requires ExecutionEvolves(rec.executions[x], row) && FailuresOk(cfg, row)
    requires rec.executions[x].status != CompensationLocked
    ensures PlanInv(cfg, SetExecution(rec, x, row)) && Evolves(rec, SetExecution(rec, x, row))
  {
    var b := SetExecution(rec, x, row);
    assert AttemptsOk(b) && SequencesOk(b) && DepsOk(b) by {
      ShapeKeepsAttempts(rec, b);
      ShapeKeepsSequences(rec, b);
    }
    assert Evolves(rec, b) by { RowEvolves(rec, b, x, row); }
    assert HistoryOk(cfg, b) by { RowHistory(cfg, rec, b, x, row); }
    assert ExecutionsOk(b) by {
      ActiveIsCurrent(rec, x);
    }
    assert StatusOk(b) by { ExecutionUpdateStatus(rec, x, row); }
    assert OrderOk(b);
  }

  lemma ExecutionUpdateStatus(rec: PlanRec, x: ExecutionId, row: Execution)
    requires StatusOk(rec) && x in rec.executions
    ensures StatusOk(SetExecution(rec, x, row))
  {
    var b := SetExecution(rec, x, row);
    if Open(b.status) && b.current.None? {
      var t :| t in rec.tasks && rec.tasks[t].status in {Pending, RetryWait};
      assert t in b.tasks && b.tasks[t].status in {Pending, RetryWait};
    }
  }

  /** What the plan and task must look like after the plan lets go of task t. */
  ghost predicate GoodExit(rec: PlanRec, t: TaskId, x: ExecutionId, task: TaskStatus, row: Execution, status: PlanStatus)
    requires t in rec.tasks
  {
    && task in {Succeeded, Pending, RetryWait, Blocked, TaskFailed} && Agree(task, row)
    && status in {Running, Completed, ReplanPending}
    && var b := Settle(rec, t, x, task, row);
       && (status == Running ==> task in {Succeeded, Pending, RetryWait} && SomeTaskIn(b, {Pending, RetryWait}))
       && (status == Completed ==> AllSucceeded(b))
  }

  lemma SettleStatus(
    rec: PlanRec, t: TaskId, x: ExecutionId, task: TaskStatus, row: Execution, status: PlanStatus)
    requires CurrentOk(rec) && StatusOk(rec) && rec.current == Some(t) && t in rec.tasks
    requires GoodExit(rec, t, x, task, row, status)
    ensures CurrentOk(Settle(rec, t, x, task, row).(status := status))
    ensures StatusOk(Settle(rec, t, x, task, row).(status := status))
  {
    var a := Settle(rec, t, x, task, row);
    var b := a.(status := status);
    if status == Running {
      var u :| u in a.tasks && a.tasks[u].status in {Pending, RetryWait};
      assert u in b.tasks && b.tasks[u].status in {Pending, RetryWait};
    }
    assert t in b.tasks;
  }

  lemma SettleExecutions(rec: PlanRec, t: TaskId, x: ExecutionId, task: TaskStatus, row: Execution)
    requires AttemptsOk(rec) && ExecutionsOk(rec) && t in rec.tasks && x in rec.executions && rec.executions[x].task == t
    requires rec.executions[x].attempt == rec.tasks[t].attemptCount
    requires row.task == t && row.attempt == rec.executions[x].attempt && Agree(task, row)
    ensures ExecutionsOk(Settle(rec, t, x, task, row))
  {
  }

  lemma SettleShape(rec: PlanRec, t: TaskId, x: ExecutionId, task: TaskStatus, row: Execution, status: PlanStatus)
    requires AttemptsOk(rec) && SequencesOk(rec) && DepsOk(rec)
    requires Open(rec.status) && t in rec.tasks && x in rec.executions
    requires row.task == rec.executions[x].task && row.attempt == rec.executions[x].attempt
    ensures var b := Settle(rec, t, x, task, row).(status := status);
            AttemptsOk(b) && SequencesOk(b) && DepsOk(b)
  {
    var b := Settle(rec, t, x, task, row).(status := status);
    assert SameShape(rec, b);
    ShapeKeepsAttempts(rec, b);
    ShapeKeepsSequences(rec, b);
  }

  lemma SettleBounds(
    cfg: Config, rec: PlanRec, t: TaskId, x: ExecutionId, task: TaskStatus, row: Execution, status: PlanStatus)
    requires BoundsOk(cfg, rec) && HistoryOk(cfg, rec)
    requires t in rec.tasks && x in rec.executions
    requires FailuresOk(cfg, row) && TaskBounded(cfg, rec.tasks[t].(status := task))
    ensures var b := Settle(rec, t, x, task, row).(status := status);
            BoundsOk(cfg, b) && HistoryOk(cfg, b)
  {
  }

  /** Nothing that depends on a running task has been started. */
  lemma SettleOrder(rec: PlanRec, t: TaskId, x: ExecutionId, task: TaskStatus, row: Execution, status: PlanStatus)
    requires OrderOk(rec) && t in rec.tasks && rec.tasks[t].status == TaskRunning
    ensures OrderOk(Settle(rec, t, x, task, row).(status := status))
  {
  }

  /** The plan lets go of its current task. */
  lemma SettleKeeps(
    cfg: Config, rec: PlanRec, t: TaskId, x: ExecutionId, task: TaskStatus, row: Execution, status: PlanStatus)
    requires PlanInv(cfg, rec) && rec.current == Some(t) && t in rec.tasks
    requires x in rec.executions && rec.executions[x].task == t
    requires Active(rec.executions[x].status) && rec.executions[x].status != CompensationLocked
    requires ExecutionEvolves(rec.executions[x], row) && FailuresOk(cfg, row)
    requires TaskBounded(cfg, rec.tasks[t].(status := task)) && GoodExit(rec, t, x, task, row, status)
    ensures PlanInv(cfg, Settle(rec, t, x, task, row).(status := status))
    ensures Evolves(rec, Settle(rec, t, x, task, row).(status := status))
  {
    ActiveIsCurrent(rec, x);
    SettleShape(rec, t, x, task, row, status);
    SettleBounds(cfg, rec, t, x, task, row, status);
    SettleStatus(rec, t, x, task, row, status);
    SettleExecutions(rec, t, x, task, row);
    SettleOrder(rec, t, x, task, row, status);
    RowEvolves(rec, Settle(rec, t, x, task, row).(status := status), x, row);
    JoinInv(cfg, Settle(rec, t, x, task, row).(status := status));
  }

  // ---------- The transactions of an execution ----------

  lemma FailuresStay(cfg: Config, e: Execution, row: Execution)
    requires FailuresOk(cfg, e) && e.status != CompensationLocked && row.status != CompensationLocked
    requires row.failures == e.failures && row.compensationAttempts == e.compensationAttempts
    ensures FailuresOk(cfg, row)
  {
  }

  /** Whoever passes a token check holds the plan's one active execution. */
  lemma OwnerIsCurrent(rec: PlanRec, s: Snapshot)
    requires CurrentOk(rec) && AttemptsOk(rec) && ExecutionsOk(rec)
    requires OwnsRunning(rec, s) || OwnsCompensation(rec, s)
    ensures rec.executions[s.execution].task == s.task && rec.status == Running
    ensures s.attempt == rec.tasks[s.task].attemptCount
  {
    ActiveIsCurrent(rec, s.execution);
  }

  lemma EvolvesRefl(rec: PlanRec)
    ensures Evolves(rec, rec)
  {
  }

  /** After the current task settles no task is running; it decides the branch taken by a completion. */
  lemma CompletionBranches(rec: PlanRec, s: Snapshot, row: Execution)
    requires CurrentOk(rec) && StatusOk(rec) && rec.status == Running
    requires rec.current == Some(s.task) && s.task in rec.tasks
    ensures var done := Settle(rec, s.task, s.execution, Succeeded, row);
            SomeTaskIn(done, {Pending, RetryWait}) || AllSucceeded(done)
  {
    var done := Settle(rec, s.task, s.execution, Succeeded, row);
    if !AllSucceeded(done) {
      var t :| t in done.tasks && done.tasks[t].status != Succeeded;
      assert done.tasks[t].status in {Pending, RetryWait};
    }
  }

  /** The transaction lets go of the current task and adds the event that moves the plan on. */
  ghost predicate LetsGo(rec: PlanRec, r: Tx<()>) {
    && r.Committed? && r.emit.Some? && r.rec.current.None? && r.rec.executions.Keys == rec.executions.Keys
    && (|| (r.emit.value.EmitWakeup? && r.emit.value.execution.None? && r.emit.value.operation.None?
            && r.rec.status == rec.status)
        || (r.emit.value.EmitReplan? && r.rec.status == ReplanPending)
        || (r.emit.value.EmitAggregation? && r.rec.status == Completed))
  }

  /** The row of an execution that has succeeded. */
  function SuccessRow(e: Execution, refs: seq<string>): Execution {
    e.(status := ExecSucceeded, resourceRefs := Dedup(refs))
  }

  lemma CompleteResult(rec: PlanRec, s: Snapshot, refs: seq<string>, now: int)
    requires CurrentOk(rec) && StatusOk(rec) && rec.status == Running && OwnsRunning(rec, s)
    ensures var r := Complete(rec, s, refs, now);
            var done := Settle(rec, s.task, s.execution, Succeeded, SuccessRow(rec.executions[s.execution], refs));
            && LetsGo(rec, r) && r.rec == done.(status := r.rec.status)
            && (r.rec.status == Running ==> SomeTaskIn(done, {Pending, RetryWait}))
            && (r.rec.status == Completed ==> AllSucceeded(done))
            && r.rec.status in {Running, Completed}
  {
    CompletionBranches(rec, s, SuccessRow(rec.executions[s.execution], refs));
  }

  lemma CompleteKeeps(cfg: Config, rec: PlanRec, s: Snapshot, refs: seq<string>, now: int)
    requires PlanInv(cfg, rec) && OwnsRunning(rec, s)
    ensures var r := Complete(rec, s, refs, now);
            r.Committed? && PlanInv(cfg, r.rec) && Evolves(rec, r.rec) && LetsGo(rec, r)
  {
    OwnerIsCurrent(rec, s);
    CompleteResult(rec, s, refs, now);
    var r := Complete(rec, s, refs, now);
    SettleKeeps(cfg, rec, s.task, s.execution, Succeeded, SuccessRow(rec.executions[s.execution], refs), r.rec.status);
  }

  /** The status of a task that is released, and of its plan. */
  function ReleasedTo(rec: PlanRec, t: TaskId, row: Execution, again: TaskStatus): (TaskStatus, PlanStatus)
    requires t in rec.tasks
  {
    if row.retryable && rec.tasks[t].attemptCount < rec.tasks[t].maxAttempts then (again, rec.status)
    else (if row.blocked then Blocked else TaskFailed, ReplanPending)
  }

  lemma ReleaseResult(rec: PlanRec, t: TaskId, x: ExecutionId, row: Execution, again: TaskStatus, wakeAt: int)
    requires t in rec.tasks && x in rec.executions && again in {Pending, RetryWait}
    ensures var r := Release(rec, t, x, row, again, wakeAt);
            var to := ReleasedTo(rec, t, row, again);
            && LetsGo(rec, r) && r.rec == Settle(rec, t, x, to.0, row).(status := to.1)
            && (to.1 == rec.status || to.1 == ReplanPending)
            && (to.1 != ReplanPending ==> SomeTaskIn(Settle(rec, t, x, to.0, row), {Pending, RetryWait}))
  {
    var to := ReleasedTo(rec, t, row, again);
    assert Settle(rec, t, x, to.0, row).tasks[t].status == to.0;
  }

  lemma ReleaseKeeps(
    cfg: Config, rec: PlanRec, t: TaskId, x: ExecutionId, row: Execution, again: TaskStatus, wakeAt: int)
    requires PlanInv(cfg, rec) && rec.current == Some(t) && t in rec.tasks
    requires x in rec.executions && rec.executions[x].task == t
    requires Active(rec.executions[x].status) && rec.executions[x].status != CompensationLocked
    requires ExecutionEvolves(rec.executions[x], row) && FailuresOk(cfg, row) && Released(row.status)
    requires again in {Pending, RetryWait}
    ensures var r := Release(rec, t, x, row, again, wakeAt);
            PlanInv(cfg, r.rec) && Evolves(rec, r.rec) && LetsGo(rec, r)
  {
    var to := ReleasedTo(rec, t, row, again);
    ReleaseResult(rec, t, x, row, again, wakeAt);
    assert TaskBounded(cfg, rec.tasks[t]);
    SettleKeeps(cfg, rec, t, x, to.0, row, to.1);
  }

  lemma FailTaskKeeps(cfg: Config, rec: PlanRec, s: Snapshot, error: TaskError, now: int)
    requires PlanInv(cfg, rec) && OwnsRunning(rec, s)
    ensures var r := FailTask(cfg, rec, s, error, now);
            PlanInv(cfg, r.rec) && Evolves(rec, r.rec) && LetsGo(rec, r)
  {
    OwnerIsCurrent(rec, s);
    var row := rec.executions[s.execution].(
      status := ExecFailed, errorCode := error.code, retryable := error.retryable, blocked := error.blocked);
    ReleaseKeeps(cfg, rec, s.task, s.execution, row, RetryWait, now + cfg.retryDelay);
  }

  lemma RequireKeeps(cfg: Config, rec: PlanRec, x: ExecutionId, error: TaskError)
    requires PlanInv(cfg, rec) && x in rec.executions && rec.executions[x].status == ExecRunning
    ensures var b := SetExecution(rec, x, RequireRow(rec.executions[x], error));
            PlanInv(cfg, b) && Evolves(rec, b)
  {
    var row := RequireRow(rec.executions[x], error);
    FailuresStay(cfg, rec.executions[x], row);
    assert ExecutionEvolves(rec.executions[x], row);
    ExecutionUpdateKeeps(cfg, rec, x, row);
  }

  lemma FailuresBegin(cfg: Config, e: Execution)
    requires FailuresOk(cfg, e)
    ensures FailuresOk(cfg, e.(compensationAttempts := e.compensationAttempts + 1))
  {
  }

  function BegunRow(e: Execution): Execution {
    e.(compensationAttempts := e.compensationAttempts + 1)
  }

  lemma BeginKeeps(cfg: Config, rec: PlanRec, s: Snapshot)
    requires PlanInv(cfg, rec) && OwnsCompensation(rec, s)
    ensures var b := SetExecution(rec, s.execution, BegunRow(rec.executions[s.execution]));
            PlanInv(cfg, b) && Evolves(rec, b)
  {
    var e := rec.executions[s.execution];
    FailuresBegin(cfg, e);
    ExecutionUpdateKeeps(cfg, rec, s.execution, BegunRow(e));
  }

  /** The next failure to be recorded is later than all recorded ones, unless it was recorded already. */
  lemma FailureSnoc(cfg: Config, e: Execution, f: CompensationFailure, locked: bool)
    requires FailuresOk(cfg, e) && e.status == CompensationRequired
    requires 1 <= f.attempt == e.compensationAttempts && forall i :: 0 <= i < |e.failures| ==> e.failures[i].attempt != f.attempt
    requires locked <==> f.attempt >= cfg.maxCompensation
    requires f.delay == if locked then None else Some(Backoff(cfg, f.attempt))
    ensures FailuresOk(cfg, e.(failures := e.failures + [f], status := if locked then CompensationLocked else e.status))
  {
  }

  lemma FailCompensationKeeps(cfg: Config, rec: PlanRec, s: Snapshot, attempt: nat, now: int)
    requires PlanInv(cfg, rec) && attempt >= 1
    requires OwnsCompensation(rec, s) && rec.executions[s.execution].compensationAttempts == attempt
    requires forall f :: f in rec.executions[s.execution].failures ==> f.attempt != attempt
    ensures var r := FailCompensation(cfg, rec, s, attempt, now);
            r.Committed? && PlanInv(cfg, r.rec) && Evolves(rec, r.rec)
  {
    var e := rec.executions[s.execution];
    var locked := attempt >= cfg.maxCompensation;
    var f := CompensationFailure(attempt, if locked then None else Some(Backoff(cfg, attempt)));
    FailureSnoc(cfg, e, f, locked);
    var row := e.(failures := e.failures + [f], status := if locked then CompensationLocked else e.status);
    ExecutionUpdateKeeps(cfg, rec, s.execution, row);
  }

  lemma FinishCompensationKeeps(cfg: Config, rec: PlanRec, s: Snapshot, now: int)
    requires PlanInv(cfg, rec) && OwnsCompensation(rec, s)
    ensures var r := FinishCompensation(cfg, rec, s, now);
            PlanInv(cfg, r.rec) && Evolves(rec, r.rec) && LetsGo(rec, r)
  {
    OwnerIsCurrent(rec, s);
    var row := rec.executions[s.execution].(status := Compensated);
    var stale := row.errorCode == EXECUTION_LEASE_EXPIRED;
    FailuresStay(cfg, rec.executions[s.execution], row);
    assert ExecutionEvolves(rec.executions[s.execution], row);
    ReleaseKeeps(cfg, rec, s.task, s.execution, row, if stale then Pending else RetryWait,
                 if stale then now else now + cfg.retryDelay);
  }

  // ---------- The claim ----------

  lemma RequeueStatus(cfg: Config, rec: PlanRec)
    requires CurrentOk(rec) && StatusOk(rec) && BoundsOk(cfg, rec) && rec.current.None? && Open(rec.status)
    ensures var b := Requeue(rec);
            CurrentOk(b) && StatusOk(b) && BoundsOk(cfg, b) && SomeTaskIn(b, {Pending})
    ensures forall t :: t in rec.tasks ==> Requeue(rec).tasks[t].status in {Pending, Succeeded}
  {
    var b := Requeue(rec);
    var t :| t in rec.tasks && rec.tasks[t].status in {Pending, RetryWait};
    assert t in b.tasks && b.tasks[t].status == Pending;
  }

  lemma RequeueShape(rec: PlanRec)
    requires AttemptsOk(rec) && ExecutionsOk(rec) && SequencesOk(rec) && DepsOk(rec) && OrderOk(rec)
    ensures var b := Requeue(rec);
            AttemptsOk(b) && ExecutionsOk(b) && SequencesOk(b) && DepsOk(b) && OrderOk(b)
  {
    var b := Requeue(rec);
    assert SameShape(rec, b);
    ShapeKeepsAttempts(rec, b);
    ShapeKeepsSequences(rec, b);
    RequeueExecutions(rec);
    RequeueOrder(rec);
  }

  lemma RequeueExecutions(rec: PlanRec)
    requires ExecutionsOk(rec)
    ensures ExecutionsOk(Requeue(rec))
  {
  }

  lemma RequeueOrder(rec: PlanRec)
    requires OrderOk(rec)
    ensures OrderOk(Requeue(rec))
  {
  }

  lemma RequeueEvolves(rec: PlanRec)
    requires CurrentOk(rec) && AttemptsOk(rec) && ExecutionsOk(rec) && rec.current.None?
    ensures Evolves(rec, Requeue(rec))
  {
    forall x | IsLocked(rec, x) ensures false {
      ActiveIsCurrent(rec, x);
    }
  }

  lemma RequeueHistory(cfg: Config, rec: PlanRec)
    requires HistoryOk(cfg, rec)
    ensures HistoryOk(cfg, Requeue(rec))
  {
  }

  lemma RequeueKeeps(cfg: Config, rec: PlanRec)
    requires PlanInv(cfg, rec) && rec.current.None? && Open(rec.status)
    ensures PlanInv(cfg, Requeue(rec)) && Evolves(rec, Requeue(rec))
    ensures SomeTaskIn(Requeue(rec), {Pending})
    ensures forall t :: t in rec.tasks ==> Requeue(rec).tasks[t].status in {Pending, Succeeded}
  {
    RequeueStatus(cfg, rec);
    RequeueShape(rec);
    RequeueHistory(cfg, rec);
    RequeueEvolves(rec);
    JoinInv(cfg, Requeue(rec));
  }

  /** The parts of the invariant make the whole. */
  lemma JoinInv(cfg: Config, rec: PlanRec)
    requires CurrentOk(rec) && StatusOk(rec) && AttemptsOk(rec) && ExecutionsOk(rec) && BoundsOk(cfg, rec)
    requires SequencesOk(rec) && DepsOk(rec) && OrderOk(rec) && HistoryOk(cfg, rec)
    ensures PlanInv(cfg, rec)
  {
  }

  /** Among the unfinished tasks of an acyclic graph, one of least rank has only finished dependencies. */
  lemma LeastRank(rank: map<TaskId, nat>, s: set<TaskId>, v: TaskId) returns (t: TaskId)
    requires v in s
    ensures t in s && forall u :: u in s && u in rank ==> t !in rank || rank[t] <= rank[u]
  {
    t := v;
    var rest := s - {t};
    while exists u :: u in rest && u in rank && t in rank && rank[u] < rank[t]
      invariant t in s && rest <= s
      invariant forall u :: u in s - rest && u in rank ==> t !in rank || rank[t] <= rank[u]
      decreases rest
    {
      var u :| u in rest && u in rank && t in rank && rank[u] < rank[t];
      t, rest := u, rest - {u};
    }
  }

  lemma SomeRunnable(rec: PlanRec) returns (t: TaskId)
    requires DepsOk(rec) && SomeTaskIn(rec, {Pending})
    requires forall u :: u in rec.tasks ==> rec.tasks[u].status in {Pending, Succeeded}
    ensures Runnable(rec, t)
  {
    var rank :| IsRank(rec.deps, rank);
    var unfinished := set u | u in rec.tasks && rec.tasks[u].status == Pending;
    var v :| v in rec.tasks && rec.tasks[v].status == Pending;
    assert v in unfinished;
    t := LeastRank(rank, unfinished, v);
    forall u | (t, u) in rec.deps ensures rec.tasks[u].status == Succeeded {
      assert rank[u] < rank[t];
    }
  }

  lemma FirstExists(rec: PlanRec, candidates: set<TaskId>, t: TaskId) returns (first: TaskId)
    requires t in candidates && candidates <= rec.tasks.Keys
    ensures first in candidates && forall u :: u in candidates ==> Before(rec, first, u)
    decreases candidates
  {
    if u :| u in candidates && u != t {
      var other := FirstExists(rec, candidates - {t}, u);
      first := if Before(rec, t, other) then t else other;
      forall v | v in candidates ensures Before(rec, first, v) {
        assert v == t || v in candidates - {t};
      }
    } else {
      first := t;
    }
  }

  /** Progress: a published plan with no current task always has a next runnable task. */
  lemma ClaimFindsTask(cfg: Config, rec: PlanRec)
    requires PlanInv(cfg, rec) && rec.current.None? && Open(rec.status)
    ensures NextRunnable(Requeue(rec)).Some?
  {
    RequeueKeeps(cfg, rec);
    var ready := Requeue(rec);
    var t := SomeRunnable(ready);
    var candidates := set u | u in ready.tasks && Runnable(ready, u);
    var first := FirstExists(ready, candidates, t);
    assert FirstRunnable(ready, first);
  }

  lemma StartAttempts(cfg: Config, rec: PlanRec, t: TaskId, ids: NewIds, event: Option<EventId>, now: int)
    requires AttemptsOk(rec) && t in rec.tasks && ids.execution !in rec.executions
    ensures AttemptsOk(StartAttempt(cfg, rec, t, ids, event, now))
  {
    var b := StartAttempt(cfg, rec, t, ids, event, now);
    forall u, n: nat | u in b.tasks && 1 <= n <= b.tasks[u].attemptCount ensures HasAttempt(b, u, n) {
      if u == t && n == b.tasks[t].attemptCount {
        assert ids.execution in b.executions;
      } else {
        assert HasAttempt(rec, u, n);
        var x :| x in rec.executions && rec.executions[x].task == u && rec.executions[x].attempt == n;
        assert x in b.executions;
      }
    }
  }

  lemma StartExecutions(cfg: Config, rec: PlanRec, t: TaskId, ids: NewIds, event: Option<EventId>, now: int)
    requires AttemptsOk(rec) && ExecutionsOk(rec) && HistoryOk(cfg, rec)
    requires t in rec.tasks && rec.tasks[t].status == Pending && ids.execution !in rec.executions
    ensures var b := StartAttempt(cfg, rec, t, ids, event, now);
            ExecutionsOk(b) && HistoryOk(cfg, b)
  {
  }

  lemma StartTasks(cfg: Config, rec: PlanRec, t: TaskId, ids: NewIds, event: Option<EventId>, now: int)
    requires CurrentOk(rec) && StatusOk(rec) && BoundsOk(cfg, rec) && SequencesOk(rec) && DepsOk(rec)
    requires rec.current.None? && Open(rec.status) && t in rec.tasks && rec.tasks[t].status == Pending
    ensures var b := StartAttempt(cfg, rec, t, ids, event, now);
            CurrentOk(b) && StatusOk(b) && BoundsOk(cfg, b) && SequencesOk(b) && DepsOk(b)
  {
  }

  lemma StartOrder(cfg: Config, rec: PlanRec, t: TaskId, ids: NewIds, event: Option<EventId>, now: int)
    requires OrderOk(rec) && Runnable(rec, t)
    ensures OrderOk(StartAttempt(cfg, rec, t, ids, event, now))
  {
    var b := StartAttempt(cfg, rec, t, ids, event, now);
    forall v, u | (v, u) in b.deps && v in b.tasks && u in b.tasks && b.tasks[v].attemptCount > 0
      ensures b.tasks[u].status == Succeeded
    {
      assert (v, u) in rec.deps;
    }
  }

  lemma StartEvolves(cfg: Config, rec: PlanRec, t: TaskId, ids: NewIds, event: Option<EventId>, now: int)
    requires CurrentOk(rec) && AttemptsOk(rec) && ExecutionsOk(rec) && rec.current.None?
    requires t in rec.tasks && rec.tasks[t].status == Pending && ids.execution !in rec.executions
    ensures Evolves(rec, StartAttempt(cfg, rec, t, ids, event, now))
  {
    forall x | IsLocked(rec, x) ensures false {
      ActiveIsCurrent(rec, x);
    }
  }

  lemma StartKeeps(cfg: Config, rec: PlanRec, t: TaskId, ids: NewIds, event: Option<EventId>, now: int)
    requires PlanInv(cfg, rec) && rec.current.None? && Open(rec.status)
    requires Runnable(rec, t) && ids.execution !in rec.executions
    ensures PlanInv(cfg, StartAttempt(cfg, rec, t, ids, event, now))
    ensures Evolves(rec, StartAttempt(cfg, rec, t, ids, event, now))
  {
    StartAttempts(cfg, rec, t, ids, event, now);
    StartExecutions(cfg, rec, t, ids, event, now);
    StartTasks(cfg, rec, t, ids, event, now);
    StartOrder(cfg, rec, t, ids, event, now);
    StartEvolves(cfg, rec, t, ids, event, now);
  }

  lemma EvolvesTrans(a: PlanRec, b: PlanRec, c: PlanRec)
    requires Evolves(a, b) && Evolves(b, c)
    ensures Evolves(a, c)
  {
    forall x | IsLocked(a, x)
      ensures c.current == a.current
      ensures a.executions[x].task in a.tasks ==> c.tasks[a.executions[x].task] == a.tasks[a.executions[x].task]
    {
      assert IsLocked(b, x);
    }
  }

  predicate Expired(cfg: Config, rec: PlanRec, t: TaskId, now: int)
    requires t in rec.tasks
  {
    now >= rec.tasks[t].startedAt + cfg.Of(rec.tasks[t].capability).timeout
  }

  /** The rows after a look at execution x of task t: given up when its lease has expired. */
  function AfterLook(cfg: Config, rec: PlanRec, t: TaskId, x: ExecutionId, now: int): PlanRec
    requires t in rec.tasks && x in rec.executions
  {
    if rec.executions[x].status == ExecRunning && Expired(cfg, rec, t, now)
    then SetExecution(rec, x, RequireRow(rec.executions[x], LEASE_ERROR)) else rec
  }

  lemma AfterLookKeeps(cfg: Config, rec: PlanRec, t: TaskId, x: ExecutionId, now: int)
    requires PlanInv(cfg, rec) && t in rec.tasks && x in rec.executions
    ensures PlanInv(cfg, AfterLook(cfg, rec, t, x, now)) && Evolves(rec, AfterLook(cfg, rec, t, x, now))
  {
    if rec.executions[x].status == ExecRunning && Expired(cfg, rec, t, now) {
      RequireKeeps(cfg, rec, x, LEASE_ERROR);
    } else {
      EvolvesRefl(rec);
    }
  }

  /** The current task's execution is always found, with the lease deciding whether it is given up. */
  lemma RecoverFinds(cfg: Config, rec: PlanRec, now: int) returns (x: ExecutionId)
    requires PlanInv(cfg, rec) && rec.current.Some?
    ensures rec.current.value in rec.tasks && x in rec.executions
    ensures rec.executions[x].task == rec.current.value && Active(rec.executions[x].status)
    ensures RecoverStale(cfg, rec, rec.current.value, now) ==
            if rec.executions[x].status == ExecRunning && !Expired(cfg, rec, rec.current.value, now) then InProgress
            else Found(x, AfterLook(cfg, rec, rec.current.value, x, now))
  {
    var t := rec.current.value;
    assert t in rec.tasks;
    assert TaskBounded(cfg, rec.tasks[t]);
    x := CurrentHasActive(rec);
  }

  /** What a claim commits when it finds execution x of the current task. */
  lemma ClaimLooks(
    cfg: Config, p: PlanId, rec: PlanRec, event: Option<EventId>,
    wantedExecution: Option<ExecutionId>, wantedOperation: Option<OperationId>, ids: NewIds, now: int, x: ExecutionId)
    requires rec.status == Running && rec.current.Some? && rec.current.value in rec.tasks && x in rec.executions
    requires RecoverStale(cfg, rec, rec.current.value, now) ==
             if rec.executions[x].status == ExecRunning && !Expired(cfg, rec, rec.current.value, now) then InProgress
             else Found(x, AfterLook(cfg, rec, rec.current.value, x, now))
    ensures var r := ClaimNext(cfg, p, rec, event, wantedExecution, wantedOperation, ids, now);
            && r.Committed? && r.out != NoTask && !r.out.Claimed? && r.emit.None?
            && (r.rec == rec || r.rec == AfterLook(cfg, rec, rec.current.value, x, now))
            && (|| r.out.Recover?
                || (rec.executions[x].status == ExecRunning && !Expired(cfg, rec, rec.current.value, now))
                || rec.executions[x].status == CompensationLocked
                || Mismatch(wantedExecution, x) || Mismatch(wantedOperation, rec.executions[x].operation))
  {
  }

  lemma ClaimStarts(
    cfg: Config, p: PlanId, rec: PlanRec, event: Option<EventId>, ids: NewIds, now: int) returns (t: TaskId)
    requires PlanInv(cfg, rec) && rec.current.None? && Open(rec.status) && ids.execution !in rec.executions
    ensures t in rec.tasks && NextRunnable(Requeue(rec)) == Some(t)
    ensures PlanInv(cfg, StartAttempt(cfg, Requeue(rec), t, ids, event, now))
    ensures Evolves(rec, StartAttempt(cfg, Requeue(rec), t, ids, event, now))
  {
    ClaimFindsTask(cfg, rec);
    RequeueKeeps(cfg, rec);
    var ready := Requeue(rec);
    t := NextRunnable(ready).value;
    StartKeeps(cfg, ready, t, ids, event, now);
    EvolvesTrans(rec, ready, StartAttempt(cfg, ready, t, ids, event, now));
  }

  /** What a claim commits when it starts task t. */
  lemma ClaimStartsResult(
    cfg: Config, p: PlanId, rec: PlanRec, event: Option<EventId>, ids: NewIds, now: int, t: TaskId)
    requires rec.current.None? && Open(rec.status) && t in rec.tasks && NextRunnable(Requeue(rec)) == Some(t)
    ensures var b := StartAttempt(cfg, Requeue(rec), t, ids, event, now);
            ClaimNext(cfg, p, rec, event, None, None, ids, now) ==
              Committed(b, Some(EmitWakeup(None, None, now + cfg.Of(rec.tasks[t].capability).timeout)),
                        Claimed(SnapshotOf(p, ids.execution, b.executions[ids.execution])))
  {
  }
}
