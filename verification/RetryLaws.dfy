/**
  When a task is tried again: over every run only after a retryable failure, and always after
  an expired lease as long as attempts are left.
 */
module RetryLaws {
  import opened Common
  import opened PlanDag
  import opened WorkflowRows
  import opened PlanLifecycle
  import opened PlanPreservation
  import opened WorkflowStore
  import opened WorkflowSystem
  import opened SystemRuns
  import opened RuntimeOutcomes
  import opened ClaimOutcomes

  /** In every run: what has been followed by a later attempt has failed or been undone, and was retryable. */
  lemma RetriedWasRetryable(cfg: Config, actions: seq<Action>, p: PlanId, x: ExecutionId, y: ExecutionId)
    requires var db := Run(cfg, INITIAL, actions).db;
             && p in db.plans && x in db.plans[p].executions && y in db.plans[p].executions
             && db.plans[p].executions[x].task == db.plans[p].executions[y].task
             && db.plans[p].executions[x].attempt < db.plans[p].executions[y].attempt
    ensures var e := Run(cfg, INITIAL, actions).db.plans[p].executions[x];
            e.status in {ExecFailed, Compensated} && e.retryable
  {
    Reachable(cfg, actions);
    assert PlanInv(cfg, Run(cfg, INITIAL, actions).db.plans[p]);
  }

  /** In every run: a task that waits for another attempt has attempts left, and its last one was retryable. */
  lemma WaitingWasRetryable(cfg: Config, actions: seq<Action>, p: PlanId, t: TaskId, x: ExecutionId)
    requires var db := Run(cfg, INITIAL, actions).db;
             && p in db.plans && t in db.plans[p].tasks && db.plans[p].tasks[t].status in {Pending, RetryWait}
             && x in db.plans[p].executions && db.plans[p].executions[x].task == t
    ensures var rec := Run(cfg, INITIAL, actions).db.plans[p];
            && rec.executions[x].status in {ExecFailed, Compensated} && rec.executions[x].retryable
            && rec.tasks[t].attemptCount < rec.tasks[t].maxAttempts
  {
    Reachable(cfg, actions);
    var rec := Run(cfg, INITIAL, actions).db.plans[p];
    assert PlanInv(cfg, rec);
    assert TaskBounded(cfg, rec.tasks[t]);
  }

  // ---------- After an expired lease ----------

  /** Whatever happened from a to b, plan p and the work of job j are as they were. */
  predicate Undisturbed(a: Sys, b: Sys, p: PlanId, j: JobId) {
    && p in a.db.plans && p in b.db.plans && b.db.plans[p] == a.db.plans[p]
    && j in a.jobs && j in b.jobs && b.jobs[j] == a.jobs[j]
  }

  /** The lease of execution x, the active one of current task t, has ended when its wakeup e is handled by job j. */
  ghost predicate LeaseFoundOver(cfg: Config, st: Sys, j: JobId, p: PlanId, t: TaskId, x: ExecutionId, e: EventId) {
    && p in st.db.plans && st.db.plans[p].current == Some(t)
    && t in st.db.plans[p].tasks && LeaseOver(cfg, st.db.plans[p], t, st.now)
    && x in st.db.plans[p].executions && st.db.plans[p].executions[x].status == ExecRunning
    && At(st, j) == Claiming(p, Some(e), None, None)
  }

  /** The rows after the claim: the execution is to be undone, and its error is the expired lease. */
  predicate ExpiredRow(rec: PlanRec, t: TaskId, x: ExecutionId, s: Snapshot, task: Task) {
    && rec.current == Some(t) && t in rec.tasks && rec.tasks[t] == task && rec.status == Running
    && s.task == t && s.execution == x && x in rec.executions
    && var e := rec.executions[x];
       && e.status == CompensationRequired && e.errorCode == "execution_lease_expired" && e.retryable && !e.blocked
       && e.attempt == s.attempt && e.operation == s.operation
  }

  lemma LeaseIsFound(cfg: Config, st: Sys, j: JobId, p: PlanId, t: TaskId, x: ExecutionId, e: EventId, ids: NewIds, id: EventId)
    returns (s: Snapshot)
    requires SysInv(cfg, st) && LeaseFoundOver(cfg, st, j, p, t, x, e) && NewEvent(st, id)
    requires ids.execution !in st.db.plans[p].executions
    ensures var a := Exec(cfg, st, ClaimFor(j, ids, id));
            && s.plan == p && p in a.db.plans && ExpiredRow(a.db.plans[p], t, x, s, st.db.plans[p].tasks[t])
            && At(a, j) == Recovering(s, Some(e))
  {
    assert PlanInv(cfg, st.db.plans[p]);
    ActiveIsCurrent(st.db.plans[p], x);
    ClaimLooksOutcome(cfg, st, j, ids, id, t, x);
    var row := st.db.plans[p].executions[x];
    s := Snapshot(p, row.task, x, row.attempt, row.operation, row.agentRun);
  }

  lemma UndoingBegins(cfg: Config, st: Sys, j: JobId, p: PlanId, t: TaskId, x: ExecutionId, e: EventId, s: Snapshot, task: Task)
    requires SysInv(cfg, st) && s.plan == p && p in st.db.plans && ExpiredRow(st.db.plans[p], t, x, s, task)
    requires At(st, j) == Recovering(s, Some(e))
    ensures var a := Exec(cfg, st, BeginAttempt(j));
            && p in a.db.plans && ExpiredRow(a.db.plans[p], t, x, s, task)
            && At(a, j).Compensating? && At(a, j).snapshot == s && At(a, j).wakeup == Some(e)
  {
    BeginOutcome(cfg, st, j);
  }

  /** What becomes of the task: pending with a wakeup that is due at once, or failed with a request for the next revision. */
  ghost predicate RetriedOrGivenUp(st: Sys, p: PlanId, t: TaskId, task: Task, id: EventId, now: int) {
    && p in st.db.plans && t in st.db.plans[p].tasks && st.db.plans[p].current.None?
    && id in st.db.outbox && st.db.outbox[id].plan == p && st.db.outbox[id].status == EventPending
    && st.db.outbox[id].availableAt == now && EventKnown(st, id)
    && var rec, kind := st.db.plans[p], st.db.outbox[id].kind;
       if task.attemptCount < task.maxAttempts then
         && rec.tasks[t].status == Pending && rec.status == Running && kind == PlanWakeup(None, None)
         && (TaskRuntime, id) !in st.db.inbox
       else
         && rec.tasks[t].status == TaskFailed && rec.status == ReplanPending
         && kind.ReplanRequested? && kind.previousPlan == p && kind.nextRevision == rec.revision + 1
         && kind.trigger == TaskTerminalFailure && (PlanningReplan, id) !in st.db.inbox
  }

  lemma UndoingEnds(
    cfg: Config, st: Sys, j: JobId, p: PlanId, t: TaskId, x: ExecutionId, e: EventId, s: Snapshot, task: Task, id: EventId)
    requires SysInv(cfg, st) && s.plan == p && p in st.db.plans && ExpiredRow(st.db.plans[p], t, x, s, task)
    requires At(st, j).Compensating? && At(st, j).snapshot == s && At(st, j).wakeup == Some(e)
    requires NewEvent(st, id) && (TaskRuntime, e) !in st.db.inbox
    ensures var b := Exec(cfg, st, AttemptSucceeds(j, id));
            RetriedOrGivenUp(b, p, t, task, id, st.now) && j in b.jobs && At(b, j) == Handled
  {
    assert JobOk(st, st.jobs[j]);
    assert (TaskRuntime, id) !in st.db.inbox && (PlanningReplan, id) !in st.db.inbox && id != e;
    AttemptSucceedsOutcome(cfg, st, j, id);
    ExecKeeps(cfg, st, AttemptSucceeds(j, id));
    UndoneRetries(cfg, st, Exec(cfg, st, AttemptSucceeds(j, id)), p, t, x, e, s, task, id);
  }

  lemma UndoneRetries(
    cfg: Config, a: Sys, b: Sys, p: PlanId, t: TaskId, x: ExecutionId, e: EventId, s: Snapshot, task: Task, id: EventId)
    requires s.plan == p && p in a.db.plans && ExpiredRow(a.db.plans[p], t, x, s, task) && a.db.plans[p].turn in a.db.turns
    requires Undoes(cfg, a.db, b.db, s, id, a.now) && b.db.inbox == a.db.inbox + {(TaskRuntime, e)} && a.now <= b.now
    requires (TaskRuntime, id) !in a.db.inbox && (PlanningReplan, id) !in a.db.inbox && id != e
    ensures RetriedOrGivenUp(b, p, t, task, id, a.now)
  {
  }

  /**
    In every run: when the claim for a wakeup finds that the lease of the current execution has
    ended, and the compensation that it then begins succeeds, the task is pending again and a
    wakeup for it is due at once, as long as it has attempts left; otherwise the task has failed
    and the next revision is requested. In between anything may happen that leaves the plan and
    this work alone.
   */
  lemma ExpiredLeaseIsRetried(
    cfg: Config, actions: seq<Action>, j: JobId, p: PlanId, t: TaskId, x: ExecutionId, e: EventId, ids: NewIds, id: EventId,
    between: seq<Action>, meanwhile: seq<Action>, done: EventId)
    requires var st := Run(cfg, INITIAL, actions);
             && LeaseFoundOver(cfg, st, j, p, t, x, e) && NewEvent(st, id) && ids.execution !in st.db.plans[p].executions
             && var a := Exec(cfg, st, ClaimFor(j, ids, id));
                var b := Run(cfg, a, between);
                && Undisturbed(a, b, p, j)
                && var c := Exec(cfg, b, BeginAttempt(j));
                   var d := Run(cfg, c, meanwhile);
                   Undisturbed(c, d, p, j) && NewEvent(d, done) && (TaskRuntime, e) !in d.db.inbox
    ensures var st := Run(cfg, INITIAL, actions);
            var b := Run(cfg, Exec(cfg, st, ClaimFor(j, ids, id)), between);
            var d := Run(cfg, Exec(cfg, b, BeginAttempt(j)), meanwhile);
            RetriedOrGivenUp(Exec(cfg, d, AttemptSucceeds(j, done)), p, t, st.db.plans[p].tasks[t], done, d.now)
  {
    var st := Run(cfg, INITIAL, actions);
    Reachable(cfg, actions);
    var s := LeaseIsFound(cfg, st, j, p, t, x, e, ids, id);
    var b := LaterState(cfg, st, ClaimFor(j, ids, id), between);
    UndoingBegins(cfg, b, j, p, t, x, e, s, st.db.plans[p].tasks[t]);
    var d := LaterState(cfg, b, BeginAttempt(j), meanwhile);
    UndoingEnds(cfg, d, j, p, t, x, e, s, st.db.plans[p].tasks[t], done);
  }

  lemma LaterState(cfg: Config, st: Sys, a: Action, actions: seq<Action>) returns (b: Sys)
    requires SysInv(cfg, st)
    ensures b == Run(cfg, Exec(cfg, st, a), actions) && SysInv(cfg, b)
  {
    b := Run(cfg, Exec(cfg, st, a), actions);
    ExecKeeps(cfg, st, a);
    RunKeeps(cfg, Exec(cfg, st, a), actions);
  }
}
