/**
  What each transaction of the task runtime leaves behind, in terms of the rows before and
  after it: who may commit, which rows change and how, and which event comes next.
 */
module RuntimeOutcomes {
  import opened Common
  import opened PlanDag
  import opened WorkflowRows
  import opened PlanLifecycle
  import opened PlanPreservation
  import opened WorkflowStore
  import opened RuntimeTransactions
  import opened WorkflowSystem

  // ---------- Rows before and after ----------

  /** Plan p has new rows; turns and clarifications are as before. */
  predicate OnlyPlan(a: Db, b: Db, p: PlanId) {
    p in b.plans && b.plans == a.plans[p := b.plans[p]] && b.turns == a.turns && b.clarifications == a.clarifications
  }

  /** One new event about plan p, not yet published. */
  predicate Adds(a: Db, b: Db, id: EventId, p: PlanId, kind: EventKind, at: int) {
    b.outbox == a.outbox[id := Event(p, kind, EventPending, 0, at)]
  }

  /** The rows of a plan after task t and execution x have new rows and the plan has let go of t. */
  predicate LetGo(rec: PlanRec, after: PlanRec, t: TaskId, x: ExecutionId, task: TaskStatus, status: PlanStatus)
    requires t in rec.tasks
  {
    && x in after.executions
    && after == rec.(tasks := rec.tasks[t := rec.tasks[t].(status := task)],
                     executions := rec.executions[x := after.executions[x]], current := None, status := status)
  }

  // ---------- Who may commit ----------

  /** The inbox after an event of the runtime, if there is one, has been handled. */
  function WithEvent(inbox: set<(Consumer, EventId)>, e: Option<EventId>): set<(Consumer, EventId)> {
    if e.None? then inbox else inbox + {(TaskRuntime, e.value)}
  }

  /** The snapshot names the current task of its plan and its execution in that status, with the same tokens. */
  predicate Names(db: Db, s: Snapshot, status: ExecutionStatus) {
    && s.plan in db.plans && db.plans[s.plan].current == Some(s.task) && s.execution in db.plans[s.plan].executions
    && var e := db.plans[s.plan].executions[s.execution];
       e.status == status && e.attempt == s.attempt && e.operation == s.operation
  }

  predicate HoldsRunning(db: Db, s: Snapshot) {
    Names(db, s, ExecRunning) && db.plans[s.plan].executions[s.execution].agentRun == s.agentRun
  }

  predicate HoldsCompensation(db: Db, s: Snapshot) {
    Names(db, s, CompensationRequired)
  }

  lemma TokensAreExact(cfg: Config, db: Db, s: Snapshot)
    requires DbInv(cfg, db)
    ensures HoldsRunning(db, s) <==> Known(db, s.plan) && OwnsRunning(db.plans[s.plan], s)
    ensures HoldsCompensation(db, s) <==> Known(db, s.plan) && OwnsCompensation(db.plans[s.plan], s)
  {
    if s.plan in db.plans {
      assert PlanInv(cfg, db.plans[s.plan]);
    }
  }

  // ---------- Completion ----------

  predicate EverythingSucceeded(rec: PlanRec, but: TaskId) {
    forall u :: u in rec.tasks && u != but ==> rec.tasks[u].status == Succeeded
  }

  /** The task has succeeded with the reported references; the plan goes on, or is complete. */
  ghost predicate Completes(a: Db, b: Db, s: Snapshot, refs: seq<string>, id: EventId, now: int)
    requires s.plan in a.plans && s.task in a.plans[s.plan].tasks && s.execution in a.plans[s.plan].executions
  {
    && OnlyPlan(a, b, s.plan) && b.inbox == a.inbox
    && var rec, after := a.plans[s.plan], b.plans[s.plan];
       var all := EverythingSucceeded(rec, s.task);
       && LetGo(rec, after, s.task, s.execution, Succeeded, if all then PlanStatus.Completed else rec.status)
       && after.executions[s.execution] ==
          rec.executions[s.execution].(status := ExecSucceeded, resourceRefs := after.executions[s.execution].resourceRefs)
       && IsFirstOccurrences(after.executions[s.execution].resourceRefs, refs)
       && Adds(a, b, id, s.plan, if all then AggregationRequested else PlanWakeup(None, None), now)
  }

  lemma CompletionRows(cfg: Config, db: Db, s: Snapshot, refs: seq<string>, id: EventId, now: int)
    requires DbInv(cfg, db) && HoldsRunning(db, s)
    ensures s.task in db.plans[s.plan].tasks
    ensures CompleteTask(db, s, refs, id, now).1.Some?
    ensures Completes(db, CompleteTask(db, s, refs, id, now).0, s, refs, id, now)
  {
    TokensAreExact(cfg, db, s);
    var rec := db.plans[s.plan];
    assert PlanInv(cfg, rec);
    OwnerIsCurrent(rec, s);
    DedupIsFirstOccurrences(refs);
    CompletionStatus(rec, s, refs, now);
  }

  lemma CompletionStatus(rec: PlanRec, s: Snapshot, refs: seq<string>, now: int)
    requires CurrentOk(rec) && StatusOk(rec) && rec.status == Running && OwnsRunning(rec, s)
    ensures var r := Complete(rec, s, refs, now);
            && r.Committed?
            && r.rec.status == (if EverythingSucceeded(rec, s.task) then PlanStatus.Completed else rec.status)
            && r.emit == Some(if EverythingSucceeded(rec, s.task) then EmitAggregation else EmitWakeup(None, None, now))
  {
    var row := rec.executions[s.execution].(status := ExecSucceeded, resourceRefs := Dedup(refs));
    var done := Settle(rec, s.task, s.execution, Succeeded, row);
    if SomeTaskIn(done, {Pending, RetryWait}) {
      var u :| u in done.tasks && done.tasks[u].status in {Pending, RetryWait};
      assert u in rec.tasks && u != s.task;
    } else {
      forall u | u in rec.tasks && u != s.task ensures rec.tasks[u].status == Succeeded {
        assert done.tasks[u] == rec.tasks[u];
      }
      assert AllSucceeded(done);
    }
  }

  /** A completion commits exactly for the holder of the running execution; otherwise nothing changes and the job ends. */
  lemma SucceedOutcome(cfg: Config, st: Sys, j: JobId, refs: seq<string>, id: EventId)
    requires SysInv(cfg, st) && At(st, j).Executing? && NewEvent(st, id)
    ensures var s, next := At(st, j).snapshot, Exec(cfg, st, Succeed(j, refs, id));
            if HoldsRunning(st.db, s) then
              s.task in st.db.plans[s.plan].tasks && At(next, j) == Handled && j in next.jobs
              && Completes(st.db, next.db, s, refs, id, st.now)
            else next == Drop(st, j)
  {
    var s := At(st, j).snapshot;
    TokensAreExact(cfg, st.db, s);
    if HoldsRunning(st.db, s) {
      CompletionRows(cfg, st.db, s, refs, id, st.now);
    }
  }

  // ---------- Failure ----------

  /** Whether the task may be tried again, as its error and its attempts say. */
  predicate AnotherAttempt(task: Task, retryable: bool) {
    retryable && task.attemptCount < task.maxAttempts
  }

  /** The request for the next revision, with its reason. */
  function ReplanFor(db: Db, p: PlanId, blocked: bool): EventKind
    requires p in db.plans && db.plans[p].turn in db.turns
  {
    var rec := db.plans[p];
    ReplanRequested(rec.workflow, db.turns[rec.turn].conversation, rec.turn, p, rec.revision + 1,
                    if blocked then TaskBlocked else TaskTerminalFailure)
  }

  /**
    The plan lets go of a task that has not succeeded: it is tried again exactly when the error
    is retryable and attempts are left; otherwise the plan waits for its next revision.
   */
  predicate Ends(
    a: Db, b: Db, p: PlanId, t: TaskId, x: ExecutionId, retryable: bool, blocked: bool, again: TaskStatus, wakeAt: int,
    id: EventId, now: int)
    requires p in a.plans && t in a.plans[p].tasks && a.plans[p].turn in a.turns
  {
    && OnlyPlan(a, b, p)
    && var rec := a.plans[p];
       if AnotherAttempt(rec.tasks[t], retryable) then
         && LetGo(rec, b.plans[p], t, x, again, rec.status)
         && Adds(a, b, id, p, PlanWakeup(None, None), wakeAt)
       else
         && LetGo(rec, b.plans[p], t, x, if blocked then Blocked else TaskFailed, ReplanPending)
         && Adds(a, b, id, p, ReplanFor(a, p, blocked), now)
  }

  /** The execution has failed with the reported error. */
  predicate Fails(cfg: Config, a: Db, b: Db, s: Snapshot, error: TaskError, id: EventId, now: int)
    requires s.plan in a.plans && s.task in a.plans[s.plan].tasks && a.plans[s.plan].turn in a.turns
    requires s.execution in a.plans[s.plan].executions
  {
    && Ends(a, b, s.plan, s.task, s.execution, error.retryable, error.blocked, RetryWait, now + cfg.retryDelay, id, now)
    && b.inbox == a.inbox
    && b.plans[s.plan].executions[s.execution] ==
       a.plans[s.plan].executions[s.execution].(
         status := ExecFailed, errorCode := error.code, retryable := error.retryable, blocked := error.blocked)
  }

  /** The execution waits for its compensation, with the reported error; nothing else changes. */
  predicate Requires(a: Db, b: Db, s: Snapshot, error: TaskError)
    requires s.plan in a.plans && s.execution in a.plans[s.plan].executions
  {
    && OnlyPlan(a, b, s.plan) && b.inbox == a.inbox && b.outbox == a.outbox
    && var rec := a.plans[s.plan];
       b.plans[s.plan] == rec.(executions := rec.executions[s.execution :=
         rec.executions[s.execution].(
           status := CompensationRequired, errorCode := error.code, retryable := error.retryable, blocked := error.blocked)])
  }

  lemma ReleaseEnds(
    db: Db, p: PlanId, t: TaskId, x: ExecutionId, row: Execution, again: TaskStatus, wakeAt: int,
    id: EventId, consume: Option<EventId>, now: int)
    requires Known(db, p) && t in db.plans[p].tasks
    ensures var r := Finish(db, p, Release(db.plans[p], t, x, row, again, wakeAt), id, consume, now);
            && r.1.Some? && Ends(db, r.0, p, t, x, row.retryable, row.blocked, again, wakeAt, id, now)
            && r.0.plans[p].executions[x] == row && r.0.inbox == WithEvent(db.inbox, consume)
  {
    if AnotherAttempt(db.plans[p].tasks[t], row.retryable) {
      ReleasedAgain(db, p, t, x, row, again, wakeAt, id, consume, now);
    } else {
      ReleasedForGood(db, p, t, x, row, again, wakeAt, id, consume, now);
    }
  }

  lemma ReleasedAgain(
    db: Db, p: PlanId, t: TaskId, x: ExecutionId, row: Execution, again: TaskStatus, wakeAt: int,
    id: EventId, consume: Option<EventId>, now: int)
    requires Known(db, p) && t in db.plans[p].tasks && AnotherAttempt(db.plans[p].tasks[t], row.retryable)
    ensures var r := Finish(db, p, Release(db.plans[p], t, x, row, again, wakeAt), id, consume, now);
            && r.1.Some? && OnlyPlan(db, r.0, p) && LetGo(db.plans[p], r.0.plans[p], t, x, again, db.plans[p].status)
            && Adds(db, r.0, id, p, PlanWakeup(None, None), wakeAt)
            && r.0.plans[p].executions[x] == row && r.0.inbox == WithEvent(db.inbox, consume)
  {
  }

  lemma ReleasedForGood(
    db: Db, p: PlanId, t: TaskId, x: ExecutionId, row: Execution, again: TaskStatus, wakeAt: int,
    id: EventId, consume: Option<EventId>, now: int)
    requires Known(db, p) && t in db.plans[p].tasks && !AnotherAttempt(db.plans[p].tasks[t], row.retryable)
    ensures var r := Finish(db, p, Release(db.plans[p], t, x, row, again, wakeAt), id, consume, now);
            && r.1.Some? && OnlyPlan(db, r.0, p)
            && LetGo(db.plans[p], r.0.plans[p], t, x, if row.blocked then Blocked else TaskFailed, ReplanPending)
            && Adds(db, r.0, id, p, ReplanFor(db, p, row.blocked), now)
            && r.0.plans[p].executions[x] == row && r.0.inbox == WithEvent(db.inbox, consume)
  {
  }

  lemma FailureRows(cfg: Config, db: Db, s: Snapshot, error: TaskError, id: EventId, now: int)
    requires DbInv(cfg, db) && HoldsRunning(db, s)
    ensures s.task in db.plans[s.plan].tasks && db.plans[s.plan].turn in db.turns
    ensures FailWithoutEffects(cfg, db, s, error, id, now).1.Some?
    ensures Fails(cfg, db, FailWithoutEffects(cfg, db, s, error, id, now).0, s, error, id, now)
  {
    TokensAreExact(cfg, db, s);
    var row := db.plans[s.plan].executions[s.execution].(
      status := ExecFailed, errorCode := error.code, retryable := error.retryable, blocked := error.blocked);
    ReleaseEnds(db, s.plan, s.task, s.execution, row, RetryWait, now + cfg.retryDelay, id, None, now);
  }

  lemma RequireRows(cfg: Config, db: Db, s: Snapshot, error: TaskError, id: EventId, now: int)
    requires DbInv(cfg, db) && HoldsRunning(db, s)
    ensures Require(db, s, error, id, now).1.Some? && Requires(db, Require(db, s, error, id, now).0, s, error)
  {
    TokensAreExact(cfg, db, s);
  }

  /** Whether the capability of the snapshot's task has side effects. */
  predicate Effectful(cfg: Config, db: Db, s: Snapshot) {
    && s.plan in db.plans && s.task in db.plans[s.plan].tasks
    && match db.plans[s.plan].tasks[s.task].capability
       case ProcessDocument => cfg.process.sideEffect
       case BuildDocumentChunks => cfg.chunks.sideEffect
       case IndexDocumentVectors => cfg.index.sideEffect
  }

  /** A failure commits exactly for the holder of the running execution: with side effects they are to be undone first. */
  lemma FailOutcome(cfg: Config, st: Sys, j: JobId, error: TaskError, id: EventId)
    requires SysInv(cfg, st) && At(st, j).Executing? && NewEvent(st, id)
    ensures var s, next := At(st, j).snapshot, Exec(cfg, st, Fail(j, error, id));
            if !HoldsRunning(st.db, s) then next == Drop(st, j)
            else
              && s.task in st.db.plans[s.plan].tasks && st.db.plans[s.plan].turn in st.db.turns && j in next.jobs
              && if Effectful(cfg, st.db, s)
                 then At(next, j) == Recovering(s, None) && Requires(st.db, next.db, s, error)
                 else At(next, j) == Handled && Fails(cfg, st.db, next.db, s, error, id, st.now)
  {
    var s := At(st, j).snapshot;
    TokensAreExact(cfg, st.db, s);
    assert Effectful(cfg, st.db, s) <==> HasSideEffect(cfg, st.db, s);
    if HoldsRunning(st.db, s) {
      FailureRows(cfg, st.db, s, error, id, st.now);
      RequireRows(cfg, st.db, s, error, id, st.now);
    }
  }

  // ---------- Compensation ----------

  /** The plan's rows are as before but for the one of execution x. */
  predicate OnlyExecution(a: Db, b: Db, p: PlanId, x: ExecutionId, row: Execution)
    requires p in a.plans
  {
    OnlyPlan(a, b, p) && b.plans[p] == a.plans[p].(executions := a.plans[p].executions[x := row])
  }

  /** A compensation attempt begins, and is counted, exactly for the holder of the compensation. */
  lemma BeginOutcome(cfg: Config, st: Sys, j: JobId)
    requires SysInv(cfg, st) && At(st, j).Recovering?
    ensures var c, next := At(st, j), Exec(cfg, st, BeginAttempt(j));
            var s := c.snapshot;
            if !HoldsCompensation(st.db, s) then next == Drop(st, j)
            else
              var e := st.db.plans[s.plan].executions[s.execution];
              && At(next, j) == Compensating(s, c.wakeup, e.compensationAttempts + 1)
              && OnlyExecution(st.db, next.db, s.plan, s.execution, e.(compensationAttempts := e.compensationAttempts + 1))
              && next.db.outbox == st.db.outbox && next.db.inbox == st.db.inbox
  {
    TokensAreExact(cfg, st.db, At(st, j).snapshot);
  }

  function TwoTo(n: nat): nat {
    if n == 0 then 1 else 2 * TwoTo(n - 1)
  }

  /** Before attempt n + 1 the compensation waits for the first delay doubled n - 1 times, at most up to the cap. */
  function DelayAfter(cfg: Config, n: nat): nat
    requires n >= 1
  {
    var delay := cfg.compensationDelay * TwoTo(n - 1);
    if delay < cfg.compensationMaxDelay then delay else cfg.compensationMaxDelay
  }

  lemma {:induction false} DoublingIsPower(d: nat, n: nat)
    ensures Doubled(d, n) == d * TwoTo(n)
  {
    if n > 0 {
      DoublingIsPower(d, n - 1);
    }
  }

  /** With the shipped settings a compensation waits 30, 60, 120 and 240 seconds, and never longer than 300. */
  lemma ShippedDelays(n: nat)
    requires n >= 1
    ensures Backoff(SHIPPED, n) == if n == 1 then 30 else if n == 2 then 60 else if n == 3 then 120 else if n == 4 then 240 else 300
  {
    DoublingIsPower(30, n - 1);
    if n > 4 {
      PowerGrows(4, n - 1);
    }
  }

  lemma {:induction false} PowerGrows(m: nat, n: nat)
    requires m <= n
    ensures TwoTo(m) <= TwoTo(n)
    decreases n
  {
    if m < n {
      PowerGrows(m, n - 1);
    }
  }

  predicate InInbox(db: Db, e: Option<EventId>) {
    e.Some? && (TaskRuntime, e.value) in db.inbox
  }

  /** The attempt is recorded as failed: the last one locks the execution, any other waits for its own wakeup. */
  predicate Postpones(cfg: Config, a: Db, b: Db, s: Snapshot, n: nat, id: EventId, now: int)
    requires n >= 1 && s.plan in a.plans && s.execution in a.plans[s.plan].executions
  {
    var e := a.plans[s.plan].executions[s.execution];
    if n >= cfg.maxCompensation then
      && OnlyExecution(a, b, s.plan, s.execution,
                       e.(status := CompensationLocked, failures := e.failures + [CompensationFailure(n, None)]))
      && b.outbox == a.outbox
    else
      && OnlyExecution(a, b, s.plan, s.execution,
                       e.(failures := e.failures + [CompensationFailure(n, Some(DelayAfter(cfg, n)))]))
      && Adds(a, b, id, s.plan, PlanWakeup(Some(s.execution), Some(s.operation)), now + DelayAfter(cfg, n))
  }

  lemma PostponedRows(cfg: Config, db: Db, s: Snapshot, n: nat, event: Option<EventId>, id: EventId, now: int)
    requires DbInv(cfg, db) && n >= 1 && HoldsCompensation(db, s)
    requires db.plans[s.plan].executions[s.execution].compensationAttempts == n
    ensures var r := CompensationFailed(cfg, db, s, n, event, id, now);
            r.1.Some? && Postpones(cfg, db, r.0, s, n, id, now) && r.0.inbox == WithEvent(db.inbox, event)
  {
    TokensAreExact(cfg, db, s);
    DoublingIsPower(cfg.compensationDelay, n - 1);
    if Recorded(db, event) {
      assert db.inbox + {(TaskRuntime, event.value)} == db.inbox;
    }
  }

  /** A failed attempt is recorded exactly by the holder of the compensation whose attempt is the last one counted. */
  lemma AttemptFailsOutcome(cfg: Config, st: Sys, j: JobId, id: EventId)
    requires SysInv(cfg, st) && At(st, j).Compensating? && NewEvent(st, id)
    ensures var c, next := At(st, j), Exec(cfg, st, AttemptFails(j, id));
            var s := c.snapshot;
            && c.attempt >= 1
            && if HoldsCompensation(st.db, s) && st.db.plans[s.plan].executions[s.execution].compensationAttempts == c.attempt then
                 && j in next.jobs && At(next, j) == Handled && Postpones(cfg, st.db, next.db, s, c.attempt, id, st.now)
                 && next.db.inbox == WithEvent(st.db.inbox, c.wakeup)
               else next == Drop(st, j)
  {
    var c := At(st, j);
    assert JobOk(st, st.jobs[j]);
    TokensAreExact(cfg, st.db, c.snapshot);
    if HoldsCompensation(st.db, c.snapshot)
       && st.db.plans[c.snapshot.plan].executions[c.snapshot.execution].compensationAttempts == c.attempt {
      PostponedRows(cfg, st.db, c.snapshot, c.attempt, c.wakeup, id, st.now);
    }
  }

  /**
    The compensation is done: the task is tried again exactly when its recorded error is
    retryable and attempts are left, at once after an expired lease and after the delay otherwise.
   */
  predicate Undoes(cfg: Config, a: Db, b: Db, s: Snapshot, id: EventId, now: int)
    requires s.plan in a.plans && s.task in a.plans[s.plan].tasks && a.plans[s.plan].turn in a.turns
    requires s.execution in a.plans[s.plan].executions
  {
    var e := a.plans[s.plan].executions[s.execution];
    var stale := e.errorCode == "execution_lease_expired";
    && Ends(a, b, s.plan, s.task, s.execution, e.retryable, e.blocked, if stale then Pending else RetryWait,
            if stale then now else now + cfg.retryDelay, id, now)
    && b.plans[s.plan].executions[s.execution] == e.(status := Compensated)
  }

  lemma UndoneRows(cfg: Config, db: Db, s: Snapshot, event: Option<EventId>, id: EventId, now: int)
    requires DbInv(cfg, db) && HoldsCompensation(db, s) && !InInbox(db, event)
    ensures s.task in db.plans[s.plan].tasks && db.plans[s.plan].turn in db.turns
    ensures var r := CompensationDone(cfg, db, s, event, id, now);
            r.1.Some? && Undoes(cfg, db, r.0, s, id, now) && r.0.inbox == WithEvent(db.inbox, event)
  {
    TokensAreExact(cfg, db, s);
    var row := db.plans[s.plan].executions[s.execution].(status := Compensated);
    var stale := row.errorCode == "execution_lease_expired";
    ReleaseEnds(db, s.plan, s.task, s.execution, row, if stale then Pending else RetryWait,
                if stale then now else now + cfg.retryDelay, id, event, now);
  }

  /** A finished compensation commits exactly for its holder, once per event. */
  lemma AttemptSucceedsOutcome(cfg: Config, st: Sys, j: JobId, id: EventId)
    requires SysInv(cfg, st) && At(st, j).Compensating? && NewEvent(st, id)
    ensures var c, next := At(st, j), Exec(cfg, st, AttemptSucceeds(j, id));
            var s := c.snapshot;
            if HoldsCompensation(st.db, s) && !InInbox(st.db, c.wakeup) then
              && s.task in st.db.plans[s.plan].tasks && st.db.plans[s.plan].turn in st.db.turns
              && j in next.jobs && At(next, j) == Handled && Undoes(cfg, st.db, next.db, s, id, st.now)
              && next.db.inbox == WithEvent(st.db.inbox, c.wakeup)
            else next == Drop(st, j)
  {
    var c := At(st, j);
    TokensAreExact(cfg, st.db, c.snapshot);
    if HoldsCompensation(st.db, c.snapshot) && !InInbox(st.db, c.wakeup) {
      UndoneRows(cfg, st.db, c.snapshot, c.wakeup, id, st.now);
    }
  }
}
