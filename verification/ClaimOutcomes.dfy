/**
  What a claim leaves behind: the task it starts, the lease it finds expired, or nothing.
 */
module ClaimOutcomes {
  import opened Common
  import opened PlanDag
  import opened WorkflowRows
  import opened PlanLifecycle
  import opened PlanPreservation
  import opened WorkflowStore
  import opened RuntimeTransactions
  import opened WorkflowSystem
  import opened RuntimeOutcomes

  // ---------- A new execution ----------

  /** The task waits for an attempt, and everything it depends on has succeeded. */
  ghost predicate Startable(rec: PlanRec, t: TaskId) {
    && t in rec.tasks && rec.tasks[t].status in {Pending, RetryWait}
    && forall u :: (t, u) in rec.deps ==> u in rec.tasks && rec.tasks[u].status == Succeeded
  }

  /** The tasks that wait for a retry, due or not, are pending, and task t is running its next attempt. */
  predicate StartsTask(cfg: Config, rec: PlanRec, after: PlanRec, t: TaskId, ids: NewIds, event: Option<EventId>, now: int)
    requires t in rec.tasks
  {
    var task := rec.tasks[t];
    && after == rec.(status := Running, current := Some(t), tasks := after.tasks, executions := after.executions)
    && after.executions == rec.executions[ids.execution :=
         Execution(t, task.attemptCount + 1, ExecRunning, ids.operation, ids.agentRun, "", false, false, [], 0, event, [])]
    && after.tasks.Keys == rec.tasks.Keys
    && after.tasks[t] == task.(status := TaskRunning, attemptCount := task.attemptCount + 1,
                               maxAttempts := cfg.Of(task.capability).maxAttempts, startedAt := now)
    && forall u :: u in rec.tasks && u != t ==>
         after.tasks[u] == if rec.tasks[u].status == RetryWait then rec.tasks[u].(status := Pending) else rec.tasks[u]
  }

  /** A claim that starts task t: its rows, the wakeup for the end of its lease, the consumed event and the snapshot. */
  predicate Starts(
    cfg: Config, a: Db, b: Db, p: PlanId, t: TaskId, ids: NewIds, event: Option<EventId>, id: EventId, now: int)
    requires p in a.plans && t in a.plans[p].tasks
  {
    && OnlyPlan(a, b, p) && StartsTask(cfg, a.plans[p], b.plans[p], t, ids, event, now)
    && Adds(a, b, id, p, PlanWakeup(None, None), now + cfg.Of(a.plans[p].tasks[t].capability).timeout)
    && b.inbox == WithEvent(a.inbox, event)
  }

  lemma StartedRows(cfg: Config, rec: PlanRec, t: TaskId, ids: NewIds, event: Option<EventId>, now: int)
    requires t in rec.tasks
    ensures StartsTask(cfg, rec, StartAttempt(cfg, Requeue(rec), t, ids, event, now), t, ids, event, now)
  {
  }

  /** Task t is the first, by sequence, of the tasks that may be started. */
  ghost predicate IsFirstStartable(rec: PlanRec, t: TaskId) {
    Startable(rec, t) && forall u :: Startable(rec, u) && u != t ==> rec.tasks[t].sequence < rec.tasks[u].sequence
  }

  lemma FirstIsStartable(rec: PlanRec, t: TaskId)
    requires SequencesOk(rec) && FirstRunnable(Requeue(rec), t)
    ensures IsFirstStartable(rec, t)
  {
    var ready := Requeue(rec);
    assert ready.deps == rec.deps;
    forall u | Startable(rec, u) && u != t ensures rec.tasks[t].sequence < rec.tasks[u].sequence {
      assert Runnable(ready, u);
    }
  }

  /** The result of a plain claim on an open plan with nothing current. */
  lemma StartResult(cfg: Config, p: PlanId, rec: PlanRec, event: Option<EventId>, ids: NewIds, now: int) returns (t: TaskId)
    requires PlanInv(cfg, rec) && rec.status in {Ready, Running} && rec.current.None? && ids.execution !in rec.executions
    ensures IsFirstStartable(rec, t)
    ensures var r := ClaimNext(cfg, p, rec, event, None, None, ids, now);
            && r.Committed? && StartsTask(cfg, rec, r.rec, t, ids, event, now)
            && r.emit == Some(EmitWakeup(None, None, now + cfg.Of(rec.tasks[t].capability).timeout))
            && r.out == Claimed(Snapshot(p, t, ids.execution, rec.tasks[t].attemptCount + 1, ids.operation, ids.agentRun))
  {
    t := ClaimStarts(cfg, p, rec, event, ids, now);
    FirstIsStartable(rec, t);
    ClaimStartsResult(cfg, p, rec, event, ids, now, t);
    StartedRows(cfg, rec, t, ids, event, now);
  }

  /** The database after a claim that starts task t. */
  lemma StartedDb(
    cfg: Config, db: Db, p: PlanId, t: TaskId, rec: PlanRec, ids: NewIds, event: Option<EventId>, id: EventId, now: int)
    requires Known(db, p) && t in db.plans[p].tasks && StartsTask(cfg, db.plans[p], rec, t, ids, event, now)
    ensures rec.turn in db.turns
    ensures var emit := Some(EmitWakeup(None, None, now + cfg.Of(db.plans[p].tasks[t].capability).timeout));
            Starts(cfg, db, CommitPlan(db, p, rec, emit, id, event, now), p, t, ids, event, id, now)
  {
  }

  /** The claim of job j starts task t and hands it out, or is rolled back because its event has been handled meanwhile. */
  predicate StartsOrEnds(cfg: Config, st: Sys, next: Sys, j: JobId, t: TaskId, ids: NewIds, id: EventId)
    requires At(st, j).Claiming? && At(st, j).plan in st.db.plans && t in st.db.plans[At(st, j).plan].tasks
  {
    var c := At(st, j);
    if InInbox(st.db, c.wakeup) then next == Drop(st, j)
    else
      && Starts(cfg, st.db, next.db, c.plan, t, ids, c.wakeup, id, st.now)
      && At(next, j) == Executing(Snapshot(c.plan, t, ids.execution, st.db.plans[c.plan].tasks[t].attemptCount + 1,
                                           ids.operation, ids.agentRun))
  }

  /**
    On an open plan with nothing current, a plain claim starts the first startable task, unless
    its event has been handled meanwhile; then it is rolled back.
   */
  lemma ClaimStartsOutcome(cfg: Config, st: Sys, j: JobId, ids: NewIds, id: EventId) returns (t: TaskId)
    requires SysInv(cfg, st) && At(st, j).Claiming? && NewEvent(st, id)
    requires var c := At(st, j);
             && c.plan in st.db.plans && st.db.plans[c.plan].status in {Ready, Running} && st.db.plans[c.plan].current.None?
             && c.wantedExecution.None? && c.wantedOperation.None? && ids.execution !in st.db.plans[c.plan].executions
    ensures IsFirstStartable(st.db.plans[At(st, j).plan], t)
    ensures StartsOrEnds(cfg, st, Exec(cfg, st, ClaimFor(j, ids, id)), j, t, ids, id)
  {
    assert PlanInv(cfg, st.db.plans[At(st, j).plan]);
    t := StartOutcome(cfg, st, j, ids, id);
  }

  lemma StartOutcome(cfg: Config, st: Sys, j: JobId, ids: NewIds, id: EventId) returns (t: TaskId)
    requires At(st, j).Claiming? && NewEvent(st, id) && Known(st.db, At(st, j).plan)
    requires PlanInv(cfg, st.db.plans[At(st, j).plan]) && ids.execution !in st.db.plans[At(st, j).plan].executions
    requires var c := At(st, j);
             && st.db.plans[c.plan].status in {Ready, Running} && st.db.plans[c.plan].current.None?
             && c.wantedExecution.None? && c.wantedOperation.None?
    ensures IsFirstStartable(st.db.plans[At(st, j).plan], t)
    ensures StartsOrEnds(cfg, st, ExecRuntime(cfg, st, ClaimFor(j, ids, id)), j, t, ids, id)
  {
    var c := At(st, j);
    t := StartResult(cfg, c.plan, st.db.plans[c.plan], c.wakeup, ids, st.now);
    var r := ClaimNext(cfg, c.plan, st.db.plans[c.plan], c.wakeup, None, None, ids, st.now);
    StartedSys(cfg, st, j, ids, id, t, r.rec, r.out.snapshot);
  }

  lemma StartedSys(cfg: Config, st: Sys, j: JobId, ids: NewIds, id: EventId, t: TaskId, rec: PlanRec, s: Snapshot)
    requires At(st, j).Claiming? && NewEvent(st, id) && Known(st.db, At(st, j).plan)
    requires t in st.db.plans[At(st, j).plan].tasks && ids.execution !in st.db.plans[At(st, j).plan].executions
    requires StartsTask(cfg, st.db.plans[At(st, j).plan], rec, t, ids, At(st, j).wakeup, st.now)
    requires var c := At(st, j);
             var emit := EmitWakeup(None, None, st.now + cfg.Of(st.db.plans[c.plan].tasks[t].capability).timeout);
             ClaimNext(cfg, c.plan, st.db.plans[c.plan], c.wakeup, c.wantedExecution, c.wantedOperation, ids, st.now) ==
             Committed(rec, Some(emit), Claimed(s))
    requires s == Snapshot(At(st, j).plan, t, ids.execution, st.db.plans[At(st, j).plan].tasks[t].attemptCount + 1,
                           ids.operation, ids.agentRun)
    ensures StartsOrEnds(cfg, st, ExecRuntime(cfg, st, ClaimFor(j, ids, id)), j, t, ids, id)
  {
    var c := At(st, j);
    var emit := EmitWakeup(None, None, st.now + cfg.Of(st.db.plans[c.plan].tasks[t].capability).timeout);
    StartedDb(cfg, st.db, c.plan, t, rec, ids, c.wakeup, id, st.now);
    StartStep(cfg, st, j, ids, id, rec, emit, s);
  }

  /** A claim that starts a task commits its rows, its wakeup and its event. */
  lemma StartStep(cfg: Config, st: Sys, j: JobId, ids: NewIds, id: EventId, rec: PlanRec, emit: Emission, s: Snapshot)
    requires At(st, j).Claiming? && NewEvent(st, id) && Known(st.db, At(st, j).plan) && rec.turn in st.db.turns
    requires ids.execution !in st.db.plans[At(st, j).plan].executions
    requires var c := At(st, j);
             ClaimNext(cfg, c.plan, st.db.plans[c.plan], c.wakeup, c.wantedExecution, c.wantedOperation, ids, st.now) ==
             Committed(rec, Some(emit), Claimed(s))
    ensures var c, next := At(st, j), ExecRuntime(cfg, st, ClaimFor(j, ids, id));
            if InInbox(st.db, c.wakeup) then next == Drop(st, j)
            else
              && next.db == CommitPlan(st.db, c.plan, rec, Some(emit), id, c.wakeup, st.now)
              && At(next, j) == Executing(s)
  {
  }

  // ---------- A look at the current execution ----------

  /** The lease of the current task has ended. */
  predicate LeaseOver(cfg: Config, rec: PlanRec, t: TaskId, now: int)
    requires t in rec.tasks
  {
    rec.tasks[t].startedAt + cfg.Of(rec.tasks[t].capability).timeout <= now
  }

  /** A running execution whose lease has ended is to be undone, and may be retried; any other row stays as it is. */
  function Found(cfg: Config, rec: PlanRec, t: TaskId, x: ExecutionId, now: int): PlanRec
    requires t in rec.tasks && x in rec.executions
  {
    if rec.executions[x].status == ExecRunning && LeaseOver(cfg, rec, t, now) then
      rec.(executions := rec.executions[x := rec.executions[x].(
        status := CompensationRequired, errorCode := "execution_lease_expired", retryable := true, blocked := false)])
    else rec
  }

  /** The event is for another execution or another operation. */
  predicate ForAnother(c: Step, x: ExecutionId, o: OperationId)
    requires c.Claiming?
  {
    || (c.wantedExecution.Some? && c.wantedExecution.value != x)
    || (c.wantedOperation.Some? && c.wantedOperation.value != o)
  }

  /** Whether the claim takes the current execution over. */
  predicate TakesOver(cfg: Config, rec: PlanRec, c: Step, t: TaskId, x: ExecutionId, now: int)
    requires c.Claiming? && t in rec.tasks && x in rec.executions
  {
    var e := rec.executions[x];
    && !ForAnother(c, x, e.operation)
    && (e.status == CompensationRequired || (e.status == ExecRunning && LeaseOver(cfg, rec, t, now)))
  }

  lemma LookIsFound(cfg: Config, rec: PlanRec, t: TaskId, x: ExecutionId, now: int)
    requires t in rec.tasks && x in rec.executions
    ensures AfterLook(cfg, rec, t, x, now) == Found(cfg, rec, t, x, now)
  {
  }

  /** The result of a claim that finds x, the active execution of current task t. */
  lemma LookResult(cfg: Config, p: PlanId, rec: PlanRec, c: Step, ids: NewIds, now: int, t: TaskId, x: ExecutionId)
    requires PlanInv(cfg, rec) && rec.current == Some(t) && t in rec.tasks && c.Claiming?
    requires x in rec.executions && rec.executions[x].status in {ExecRunning, CompensationRequired, CompensationLocked}
    ensures var r := ClaimNext(cfg, p, rec, c.wakeup, c.wantedExecution, c.wantedOperation, ids, now);
            && r.Committed? && r.emit.None? && r.rec.turn == rec.turn
            && (r.out.Recover? <==> TakesOver(cfg, rec, c, t, x, now))
            && (r.out.Recover? ==> r.out.snapshot == SnapshotOf(p, x, rec.executions[x]))
            && !r.out.Claimed?
            && r.rec == (if ForAnother(c, x, rec.executions[x].operation) && c.wakeup.None? then rec
                         else Found(cfg, rec, t, x, now))
  {
    var y := RecoverFinds(cfg, rec, now);
    ActiveUnique(rec, x, y);
    LookIsFound(cfg, rec, t, x, now);
    LookBranches(cfg, p, rec, c, ids, now, t, x);
  }

  lemma LookBranches(cfg: Config, p: PlanId, rec: PlanRec, c: Step, ids: NewIds, now: int, t: TaskId, x: ExecutionId)
    requires rec.status == Running && rec.current == Some(t) && t in rec.tasks && c.Claiming?
    requires x in rec.executions && rec.executions[x].status in {ExecRunning, CompensationRequired, CompensationLocked}
    requires RecoverStale(cfg, rec, t, now) ==
             if rec.executions[x].status == ExecRunning && !LeaseOver(cfg, rec, t, now) then InProgress
             else Stale.Found(x, Found(cfg, rec, t, x, now))
    ensures var r := ClaimNext(cfg, p, rec, c.wakeup, c.wantedExecution, c.wantedOperation, ids, now);
            && r.Committed? && r.emit.None? && r.rec.turn == rec.turn
            && (r.out.Recover? <==> TakesOver(cfg, rec, c, t, x, now))
            && (r.out.Recover? ==> r.out.snapshot == SnapshotOf(p, x, rec.executions[x]))
            && !r.out.Claimed?
            && r.rec == (if ForAnother(c, x, rec.executions[x].operation) && c.wakeup.None? then rec
                         else Found(cfg, rec, t, x, now))
  {
  }

  /** The claim of job j takes execution x over, or handles its event, or is rolled back because that has been handled meanwhile. */
  predicate Looks(cfg: Config, st: Sys, next: Sys, j: JobId, t: TaskId, x: ExecutionId)
    requires At(st, j).Claiming? && At(st, j).plan in st.db.plans
    requires t in st.db.plans[At(st, j).plan].tasks && x in st.db.plans[At(st, j).plan].executions
  {
    var c := At(st, j);
    var rec := st.db.plans[c.plan];
    if TakesOver(cfg, rec, c, t, x, st.now) then
      && At(next, j) == Recovering(Snapshot(c.plan, rec.executions[x].task, x, rec.executions[x].attempt,
                                            rec.executions[x].operation, rec.executions[x].agentRun), c.wakeup)
      && next.db == st.db.(plans := st.db.plans[c.plan := Found(cfg, rec, t, x, st.now)])
    else if InInbox(st.db, c.wakeup) then next == Drop(st, j)
    else
      && j in next.jobs && At(next, j) == Handled
      && next.db == st.db.(
           plans := st.db.plans[c.plan :=
             if ForAnother(c, x, rec.executions[x].operation) && c.wakeup.None? then rec
             else Found(cfg, rec, t, x, st.now)],
           inbox := WithEvent(st.db.inbox, c.wakeup))
  }

  /**
    On a plan with a current task, a claim starts nothing. It takes the active execution over
    when that waits for compensation or its lease has ended, and the event is not for another
    execution; otherwise it handles its event, if that has not been handled meanwhile. A lease
    found expired is recorded, except by a claim for another execution that handles no event.
   */
  lemma ClaimLooksOutcome(cfg: Config, st: Sys, j: JobId, ids: NewIds, id: EventId, t: TaskId, x: ExecutionId)
    requires SysInv(cfg, st) && At(st, j).Claiming? && NewEvent(st, id)
    requires var c := At(st, j);
             && c.plan in st.db.plans && ids.execution !in st.db.plans[c.plan].executions
             && var rec := st.db.plans[c.plan];
                && rec.current == Some(t) && x in rec.executions
                && rec.executions[x].status in {ExecRunning, CompensationRequired, CompensationLocked}
    ensures At(st, j).plan in st.db.plans && t in st.db.plans[At(st, j).plan].tasks
    ensures Looks(cfg, st, Exec(cfg, st, ClaimFor(j, ids, id)), j, t, x)
  {
    assert PlanInv(cfg, st.db.plans[At(st, j).plan]);
    LookOutcome(cfg, st, j, ids, id, t, x);
  }

  lemma LookOutcome(cfg: Config, st: Sys, j: JobId, ids: NewIds, id: EventId, t: TaskId, x: ExecutionId)
    requires At(st, j).Claiming? && NewEvent(st, id) && Known(st.db, At(st, j).plan)
    requires PlanInv(cfg, st.db.plans[At(st, j).plan]) && ids.execution !in st.db.plans[At(st, j).plan].executions
    requires var rec := st.db.plans[At(st, j).plan];
             && rec.current == Some(t) && t in rec.tasks && x in rec.executions
             && rec.executions[x].status in {ExecRunning, CompensationRequired, CompensationLocked}
    ensures Looks(cfg, st, ExecRuntime(cfg, st, ClaimFor(j, ids, id)), j, t, x)
  {
    var c := At(st, j);
    LookResult(cfg, c.plan, st.db.plans[c.plan], c, ids, st.now, t, x);
    LookStep(cfg, st, j, ids, id);
  }

  /** A claim that starts nothing commits the rows it found, and handles its event unless it takes over. */
  lemma LookStep(cfg: Config, st: Sys, j: JobId, ids: NewIds, id: EventId)
    requires At(st, j).Claiming? && NewEvent(st, id) && Known(st.db, At(st, j).plan)
    requires ids.execution !in st.db.plans[At(st, j).plan].executions
    requires var c := At(st, j);
             var r := ClaimNext(cfg, c.plan, st.db.plans[c.plan], c.wakeup, c.wantedExecution, c.wantedOperation, ids, st.now);
             r.Committed? && r.emit.None? && r.rec.turn == st.db.plans[c.plan].turn && !r.out.Claimed?
    ensures var c, next := At(st, j), ExecRuntime(cfg, st, ClaimFor(j, ids, id));
            var r := ClaimNext(cfg, c.plan, st.db.plans[c.plan], c.wakeup, c.wantedExecution, c.wantedOperation, ids, st.now);
            if r.out.Recover? then
              && At(next, j) == Recovering(r.out.snapshot, c.wakeup)
              && next.db == st.db.(plans := st.db.plans[c.plan := r.rec])
            else if InInbox(st.db, c.wakeup) then next == Drop(st, j)
            else
              && j in next.jobs && At(next, j) == Handled
              && next.db == st.db.(plans := st.db.plans[c.plan := r.rec], inbox := WithEvent(st.db.inbox, c.wakeup))
  {
  }

  /** On every other plan a claim changes nothing but the inbox. */
  lemma ClaimRestsOutcome(cfg: Config, st: Sys, j: JobId, ids: NewIds, id: EventId)
    requires SysInv(cfg, st) && At(st, j).Claiming? && NewEvent(st, id)
    requires var c := At(st, j);
             && c.plan in st.db.plans && ids.execution !in st.db.plans[c.plan].executions
             && st.db.plans[c.plan].current.None?
             && (|| st.db.plans[c.plan].status !in {Ready, Running}
                 || c.wantedExecution.Some? || c.wantedOperation.Some?)
    ensures var c, next := At(st, j), Exec(cfg, st, ClaimFor(j, ids, id));
            if InInbox(st.db, c.wakeup) then next == Drop(st, j)
            else
              && j in next.jobs && At(next, j) == Handled
              && next.db == st.db.(inbox := WithEvent(st.db.inbox, c.wakeup))
  {
    var c := At(st, j);
    LookStep(cfg, st, j, ids, id);
    assert st.db.plans[c.plan := st.db.plans[c.plan]] == st.db.plans;
  }

  /** A claim for a plan that does not exist ends its job. */
  lemma ClaimMissesOutcome(cfg: Config, st: Sys, j: JobId, ids: NewIds, id: EventId)
    requires At(st, j).Claiming? && NewEvent(st, id) && At(st, j).plan !in st.db.plans
    ensures Exec(cfg, st, ClaimFor(j, ids, id)) == Drop(st, j)
  {
  }
}
