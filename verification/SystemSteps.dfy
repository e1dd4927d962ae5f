/** The invariant of the system is kept by every action, and so by every run. */
module SystemSteps {
  import opened Common
  import opened WorkflowRows
  import opened PlanLifecycle
  import opened WorkflowStore
  import opened WorkflowCommit
  import opened RuntimeTransactions
  import opened PlanningTransactions
  import opened ReplanTransactions
  import opened WorkflowSystem
  import opened SystemPreservation

  // ---------- One job moves on ----------

  /** The job that job j becomes is consistent with the new state. */
  ghost predicate Fits(a: Sys, j: JobId, db: Db, step: Step)
    requires j in a.jobs
  {
    var b := Put(a, db, j, step);
    && StepOk(b, step) && (a.jobs[j].entry.Some? ==> EntryOk(b, a.jobs[j].entry.value, step))
    && (step.Compensating? ==> NewAttempt(a, b, j))
  }

  lemma PutKeeps(cfg: Config, a: Sys, j: JobId, db: Db, step: Step)
    requires SysInv(cfg, a) && j in a.jobs && Preserved(cfg, a.db, db)
    requires AttemptsStay(a.db, db, a.jobs[j].step) && Fits(a, j, db, step)
    ensures SysInv(cfg, Put(a, db, j, step)) && SysEvolves(a, Put(a, db, j, step))
  {
    TransactionKeeps(cfg, a, Put(a, db, j, step), j);
  }

  lemma DropKeeps(cfg: Config, a: Sys, j: JobId)
    requires SysInv(cfg, a)
    ensures SysInv(cfg, Drop(a, j)) && SysEvolves(a, Drop(a, j))
  {
    PreservedRefl(cfg, a.db);
    AttemptsStaySame(a.db, a.db, At(a, j));
    TransactionKeeps(cfg, a, Drop(a, j), j);
  }

  lemma ContinueKeeps<T>(cfg: Config, a: Sys, j: JobId, r: (Db, Option<T>), step: Step)
    requires SysInv(cfg, a) && j in a.jobs
    requires r.1.Some? ==>
      Preserved(cfg, a.db, r.0) && AttemptsStay(a.db, r.0, a.jobs[j].step) && Fits(a, j, r.0, step)
    ensures SysInv(cfg, Continue(a, j, r, step)) && SysEvolves(a, Continue(a, j, r, step))
  {
    if r.1.Some? {
      PutKeeps(cfg, a, j, r.0, step);
    } else {
      DropKeeps(cfg, a, j);
    }
  }

  /** Whoever executes a task works for an event that has been consumed. */
  lemma DoneInDb(a: Sys, db: Db, e: EventId)
    requires DbEvolves(a.db, db) && Done(a, e)
    ensures e in db.outbox && (ConsumerOf(db.outbox[e].kind), e) in db.inbox
  {
  }

  // ---------- Claims ----------

  lemma ClaimRecords(
    cfg: Config, db: Db, p: PlanId, event: Option<EventId>, wantedExecution: Option<ExecutionId>,
    wantedOperation: Option<OperationId>, ids: NewIds, id: EventId, now: int)
    ensures var r := Claim(cfg, db, p, event, wantedExecution, wantedOperation, ids, id, now);
            && (r.1.Some? && !r.1.value.Recover? && event.Some? ==> (TaskRuntime, event.value) in r.0.inbox)
            && (r.1.Some? && r.1.value.Recover? ==> r.1.value.snapshot.plan == p)
  {
  }

  lemma ClaimFits(cfg: Config, a: Sys, j: JobId, ids: NewIds, id: EventId)
    requires j in a.jobs && a.jobs[j].step.Claiming? && JobOk(a, a.jobs[j])
    requires var c := a.jobs[j].step;
             var r := Claim(cfg, a.db, c.plan, c.wakeup, c.wantedExecution, c.wantedOperation, ids, id, a.now);
             r.1.Some? && DbEvolves(a.db, r.0)
    ensures var c := a.jobs[j].step;
            var r := Claim(cfg, a.db, c.plan, c.wakeup, c.wantedExecution, c.wantedOperation, ids, id, a.now);
            Fits(a, j, r.0, AfterClaim(r.1.value, c.wakeup))
  {
    var c := a.jobs[j].step;
    ClaimRecords(cfg, a.db, c.plan, c.wakeup, c.wantedExecution, c.wantedOperation, ids, id, a.now);
    var r := Claim(cfg, a.db, c.plan, c.wakeup, c.wantedExecution, c.wantedOperation, ids, id, a.now);
    if c.wakeup.Some? {
      var e := c.wakeup.value;
      assert e in a.db.outbox && e in r.0.outbox && EventEvolves(a.db.outbox[e], r.0.outbox[e]);
    }
  }

  lemma ClaimKeepsSys(cfg: Config, a: Sys, j: JobId, ids: NewIds, id: EventId)
    requires SysInv(cfg, a) && At(a, j).Claiming? && NewEvent(a, id)
    requires At(a, j).plan in a.db.plans ==> ids.execution !in a.db.plans[At(a, j).plan].executions
    ensures var b := DoClaim(cfg, a, j, ids, id);
            SysInv(cfg, b) && SysEvolves(a, b)
  {
    var c := a.jobs[j].step;
    assert JobOk(a, a.jobs[j]);
    ClaimDbKeeps(cfg, a.db, c.plan, c.wakeup, c.wantedExecution, c.wantedOperation, ids, id, a.now);
    var r := Claim(cfg, a.db, c.plan, c.wakeup, c.wantedExecution, c.wantedOperation, ids, id, a.now);
    if r.1.None? {
      DropKeeps(cfg, a, j);
    } else {
      ClaimAttempts(cfg, a.db, c.plan, c.wakeup, c.wantedExecution, c.wantedOperation, ids, id, a.now, c);
      ClaimFits(cfg, a, j, ids, id);
      PutKeeps(cfg, a, j, r.0, AfterClaim(r.1.value, c.wakeup));
    }
  }

  // ---------- Completion and failure ----------

  /** An executing job, whatever it does next, works for a consumed event. */
  lemma ExecutingFits(a: Sys, j: JobId, db: Db, step: Step)
    requires j in a.jobs && a.jobs[j].step.Executing? && JobOk(a, a.jobs[j]) && DbEvolves(a.db, db)
    requires step == Handled || step == Recovering(a.jobs[j].step.snapshot, None)
    ensures Fits(a, j, db, step)
  {
    if a.jobs[j].entry.Some? {
      DoneInDb(a, db, a.stream[a.jobs[j].entry.value]);
    }
  }

  lemma SucceedKeeps(cfg: Config, a: Sys, j: JobId, refs: seq<string>, id: EventId)
    requires SysInv(cfg, a) && At(a, j).Executing? && NewEvent(a, id)
    ensures var b := Continue(a, j, CompleteTask(a.db, At(a, j).snapshot, refs, id, a.now), Handled);
            SysInv(cfg, b) && SysEvolves(a, b)
  {
    var s := a.jobs[j].step.snapshot;
    assert JobOk(a, a.jobs[j]);
    CompleteDbKeeps(cfg, a.db, s, refs, id, a.now);
    var r := CompleteTask(a.db, s, refs, id, a.now);
    if r.1.Some? {
      FinishAttempts(a.db, s.plan, Complete(a.db.plans[s.plan], s, refs, a.now), id, None, a.now, a.jobs[j].step);
      ExecutingFits(a, j, r.0, Handled);
    }
    ContinueKeeps(cfg, a, j, r, Handled);
  }

  lemma FailPureKeeps(cfg: Config, a: Sys, j: JobId, error: TaskError, id: EventId)
    requires SysInv(cfg, a) && At(a, j).Executing? && NewEvent(a, id)
    ensures var b := Continue(a, j, FailWithoutEffects(cfg, a.db, At(a, j).snapshot, error, id, a.now), Handled);
            SysInv(cfg, b) && SysEvolves(a, b)
  {
    var s := a.jobs[j].step.snapshot;
    assert JobOk(a, a.jobs[j]);
    FailDbKeeps(cfg, a.db, s, error, id, a.now);
    var r := FailWithoutEffects(cfg, a.db, s, error, id, a.now);
    if r.1.Some? {
      FinishAttempts(a.db, s.plan, FailTask(cfg, a.db.plans[s.plan], s, error, a.now), id, None, a.now, a.jobs[j].step);
      ExecutingFits(a, j, r.0, Handled);
    }
    ContinueKeeps(cfg, a, j, r, Handled);
  }

  lemma FailEffectKeeps(cfg: Config, a: Sys, j: JobId, error: TaskError, id: EventId)
    requires SysInv(cfg, a) && At(a, j).Executing?
    ensures var s := At(a, j).snapshot;
            var b := Continue(a, j, Require(a.db, s, error, id, a.now), Recovering(s, None));
            SysInv(cfg, b) && SysEvolves(a, b)
  {
    var s := a.jobs[j].step.snapshot;
    assert JobOk(a, a.jobs[j]);
    RequireDbKeeps(cfg, a.db, s, error, id, a.now);
    var r := Require(a.db, s, error, id, a.now);
    if r.1.Some? {
      FinishAttempts(a.db, s.plan, RequireCompensation(a.db.plans[s.plan], s, error), id, None, a.now, a.jobs[j].step);
      ExecutingFits(a, j, r.0, Recovering(s, None));
    }
    ContinueKeeps(cfg, a, j, r, Recovering(s, None));
  }

  lemma FailKeeps(cfg: Config, a: Sys, j: JobId, error: TaskError, id: EventId)
    requires SysInv(cfg, a) && At(a, j).Executing? && NewEvent(a, id)
    ensures SysInv(cfg, DoFail(cfg, a, j, error, id)) && SysEvolves(a, DoFail(cfg, a, j, error, id))
  {
    if HasSideEffect(cfg, a.db, a.jobs[j].step.snapshot) {
      FailEffectKeeps(cfg, a, j, error, id);
    } else {
      FailPureKeeps(cfg, a, j, error, id);
    }
  }

  // ---------- Compensation ----------

  /** A new attempt has a number that no failure carries yet. */
  lemma BeginFits(cfg: Config, a: Sys, j: JobId)
    requires j in a.jobs && a.jobs[j].step.Recovering? && JobOk(a, a.jobs[j])
    requires var c := a.jobs[j].step;
             c.snapshot.plan in a.db.plans ==> HistoryOk(cfg, a.db.plans[c.snapshot.plan])
    requires var r := Begin(a.db, a.jobs[j].step.snapshot, 0, a.now);
             r.1.Some? && DbEvolves(a.db, r.0)
    ensures var c := a.jobs[j].step;
            var r := Begin(a.db, c.snapshot, 0, a.now);
            Fits(a, j, r.0, Compensating(c.snapshot, c.wakeup, r.1.value))
  {
    var c := a.jobs[j].step;
    var s := c.snapshot;
    var r := Begin(a.db, s, 0, a.now);
    var e := a.db.plans[s.plan].executions[s.execution];
    assert FailuresOk(cfg, e);
    assert AttemptPending(r.0, s, r.1.value);
    if c.wakeup.Some? {
      var w := c.wakeup.value;
      assert w in r.0.outbox && EventEvolves(a.db.outbox[w], r.0.outbox[w]);
    }
    if a.jobs[j].entry.Some? && Done(a, a.stream[a.jobs[j].entry.value]) {
      DoneInDb(a, r.0, a.stream[a.jobs[j].entry.value]);
    }
  }

  lemma BeginKeepsSys(cfg: Config, a: Sys, j: JobId)
    requires SysInv(cfg, a) && At(a, j).Recovering?
    ensures SysInv(cfg, DoBegin(a, j)) && SysEvolves(a, DoBegin(a, j))
  {
    var c := a.jobs[j].step;
    var s := c.snapshot;
    assert JobOk(a, a.jobs[j]);
    assert s.plan in a.db.plans ==> PlanInv(cfg, a.db.plans[s.plan]);
    BeginDbKeeps(cfg, a.db, s, 0, a.now);
    var r := Begin(a.db, s, 0, a.now);
    if r.1.Some? {
      FinishAttempts(a.db, s.plan, BeginCompensation(a.db.plans[s.plan], s), 0, None, a.now, c);
      BeginFits(cfg, a, j);
      ContinueKeeps(cfg, a, j, r, Compensating(s, c.wakeup, r.1.value));
    } else {
      DropKeeps(cfg, a, j);
    }
  }

  /** The event of a finished compensation is in the inbox, whoever put it there. */
  lemma CompensatedFits(a: Sys, j: JobId, db: Db)
    requires j in a.jobs && a.jobs[j].step.Compensating? && JobOk(a, a.jobs[j]) && DbEvolves(a.db, db)
    requires var w := a.jobs[j].step.wakeup;
             w.Some? ==> (TaskRuntime, w.value) in db.inbox
    ensures Fits(a, j, db, Handled)
  {
    var w := a.jobs[j].step.wakeup;
    if a.jobs[j].entry.Some? {
      var e := a.stream[a.jobs[j].entry.value];
      if Done(a, e) {
        DoneInDb(a, db, e);
      } else {
        assert w == Some(e) && e in db.outbox && EventEvolves(a.db.outbox[e], db.outbox[e]);
      }
    }
  }

  lemma CompensationFailedRecords(
    cfg: Config, db: Db, s: Snapshot, attempt: nat, event: Option<EventId>, id: EventId, now: int)
    requires attempt >= 1
    ensures var r := CompensationFailed(cfg, db, s, attempt, event, id, now);
            r.1.Some? && event.Some? ==> (TaskRuntime, event.value) in r.0.inbox
  {
  }

  lemma CompensationDoneRecords(cfg: Config, db: Db, s: Snapshot, event: Option<EventId>, id: EventId, now: int)
    ensures var r := CompensationDone(cfg, db, s, event, id, now);
            r.1.Some? && event.Some? ==> (TaskRuntime, event.value) in r.0.inbox
  {
  }

  /** A recorded failure settles its own attempt and no other. */
  lemma FailedAttempts(
    cfg: Config, db: Db, s: Snapshot, attempt: nat, event: Option<EventId>, id: EventId, now: int, but: Step)
    requires attempt >= 1 && but.Compensating? && but.snapshot == s && but.attempt == attempt
    requires DbEvolves(db, CompensationFailed(cfg, db, s, attempt, event, id, now).0)
    ensures AttemptsStay(db, CompensationFailed(cfg, db, s, attempt, event, id, now).0, but)
  {
    var b := CompensationFailed(cfg, db, s, attempt, event, id, now).0;
    forall step: Step | step.Compensating? && AttemptPending(db, step.snapshot, step.attempt) && !SameAttempt(step, but)
      ensures AttemptPending(b, step.snapshot, step.attempt)
    {
      var t := step.snapshot;
      assert PlanEvolves(db, b, t.plan);
      assert ExecutionEvolves(db.plans[t.plan].executions[t.execution], b.plans[t.plan].executions[t.execution]);
      FailedAttempt(cfg, db, s, attempt, event, id, now, step);
    }
  }

  lemma FailedAttempt(
    cfg: Config, db: Db, s: Snapshot, attempt: nat, event: Option<EventId>, id: EventId, now: int, step: Step)
    requires attempt >= 1 && step.Compensating? && AttemptPending(db, step.snapshot, step.attempt)
    requires (step.snapshot.plan == s.plan && step.snapshot.execution == s.execution) ==> step.attempt != attempt
    ensures var b := CompensationFailed(cfg, db, s, attempt, event, id, now).0;
            var t := step.snapshot;
            && t.plan in b.plans && t.execution in b.plans[t.plan].executions
            && forall f :: f in b.plans[t.plan].executions[t.execution].failures ==> f.attempt != step.attempt
  {
  }

  lemma AttemptFailsKeeps(cfg: Config, a: Sys, j: JobId, id: EventId)
    requires SysInv(cfg, a) && At(a, j).Compensating? && At(a, j).attempt >= 1 && NewEvent(a, id)
    ensures var c := At(a, j);
            var r := CompensationFailed(cfg, a.db, c.snapshot, c.attempt, c.wakeup, id, a.now);
            var b := Continue(a, j, r, Handled);
            SysInv(cfg, b) && SysEvolves(a, b)
  {
    var c := a.jobs[j].step;
    assert JobOk(a, a.jobs[j]);
    CompensationFailedDbKeeps(cfg, a.db, c.snapshot, c.attempt, c.wakeup, id, a.now);
    var r := CompensationFailed(cfg, a.db, c.snapshot, c.attempt, c.wakeup, id, a.now);
    if r.1.Some? {
      CompensationFailedRecords(cfg, a.db, c.snapshot, c.attempt, c.wakeup, id, a.now);
      FailedAttempts(cfg, a.db, c.snapshot, c.attempt, c.wakeup, id, a.now, c);
      CompensatedFits(a, j, r.0);
    }
    ContinueKeeps(cfg, a, j, r, Handled);
  }

  lemma CompensationDoneAttempts(
    cfg: Config, db: Db, s: Snapshot, event: Option<EventId>, id: EventId, now: int, but: Step)
    requires CompensationDone(cfg, db, s, event, id, now).1.Some?
    requires DbEvolves(db, CompensationDone(cfg, db, s, event, id, now).0)
    ensures AttemptsStay(db, CompensationDone(cfg, db, s, event, id, now).0, but)
  {
    FinishAttempts(db, s.plan, FinishCompensation(cfg, db.plans[s.plan], s, now), id, event, now, but);
  }

  lemma AttemptSucceedsKeeps(cfg: Config, a: Sys, j: JobId, id: EventId)
    requires SysInv(cfg, a) && At(a, j).Compensating? && NewEvent(a, id)
    ensures var c := At(a, j);
            var b := Continue(a, j, CompensationDone(cfg, a.db, c.snapshot, c.wakeup, id, a.now), Handled);
            SysInv(cfg, b) && SysEvolves(a, b)
  {
    var c := a.jobs[j].step;
    var s := c.snapshot;
    assert JobOk(a, a.jobs[j]);
    CompensationDoneDbKeeps(cfg, a.db, s, c.wakeup, id, a.now);
    var r := CompensationDone(cfg, a.db, s, c.wakeup, id, a.now);
    if r.1.Some? {
      CompensationDoneRecords(cfg, a.db, s, c.wakeup, id, a.now);
      CompensationDoneAttempts(cfg, a.db, s, c.wakeup, id, a.now, c);
      CompensatedFits(a, j, r.0);
    }
    ContinueKeeps(cfg, a, j, r, Handled);
  }

  // ---------- Checks and dispatch ----------

  /** The job moves on without a transaction. */
  lemma MoveKeeps(cfg: Config, a: Sys, j: JobId, step: Step)
    requires SysInv(cfg, a) && j in a.jobs && Fits(a, j, a.db, step)
    ensures SysInv(cfg, Put(a, a.db, j, step)) && SysEvolves(a, Put(a, a.db, j, step))
  {
    PreservedRefl(cfg, a.db);
    AttemptsStaySame(a.db, a.db, a.jobs[j].step);
    PutKeeps(cfg, a, j, a.db, step);
  }

  lemma CheckWakeupKeeps(cfg: Config, a: Sys, j: JobId)
    requires SysInv(cfg, a) && At(a, j).Waking?
    ensures SysInv(cfg, ExecRuntime(cfg, a, CheckInbox(j))) && SysEvolves(a, ExecRuntime(cfg, a, CheckInbox(j)))
  {
    assert JobOk(a, a.jobs[j]);
    var e := a.jobs[j].step.event;
    var kind := a.db.outbox[e].kind;
    if (TaskRuntime, e) in a.db.inbox {
      MoveKeeps(cfg, a, j, Handled);
    } else {
      MoveKeeps(cfg, a, j, Claiming(a.db.outbox[e].plan, Some(e), kind.execution, kind.operation));
    }
  }

  lemma CheckAggregationKeeps(cfg: Config, a: Sys, j: JobId)
    requires SysInv(cfg, a)
    ensures SysInv(cfg, ExecDispatch(a, CheckInbox(j))) && SysEvolves(a, ExecDispatch(a, CheckInbox(j)))
  {
    PreservedRefl(cfg, a.db);
    if At(a, j).CheckingAggregation? {
      assert JobOk(a, a.jobs[j]);
      var e := a.jobs[j].step.event;
      MoveKeeps(cfg, a, j, if (RuntimeDispatcher, e) in a.db.inbox then Handled else Aggregating(e));
    }
  }

  lemma PlannerReturnsKeeps(cfg: Config, a: Sys, j: JobId)
    requires SysInv(cfg, a)
    ensures SysInv(cfg, ExecDispatch(a, PlannerReturns(j))) && SysEvolves(a, ExecDispatch(a, PlannerReturns(j)))
  {
    PreservedRefl(cfg, a.db);
    if At(a, j).RunningPlanner? {
      assert JobOk(a, a.jobs[j]);
      MoveKeeps(cfg, a, j, Handled);
    }
  }

  // ---------- Replanning and aggregation ----------

  lemma PrepareRecords(db: Db, e: EventId, k: EventKind, q: PlanId, leaseOver: bool, missed: bool)
    requires k.ReplanRequested? && !Prepare(db, e, k, q, leaseOver, missed).1.ReplanRaised?
    ensures (PlanningReplan, e) in Prepare(db, e, k, q, leaseOver, missed).0.inbox
  {
  }

  lemma PrepareFailures(db: Db, e: EventId, k: EventKind, q: PlanId, leaseOver: bool, missed: bool)
    requires k.ReplanRequested? && q !in db.plans
    ensures var b := Prepare(db, e, k, q, leaseOver, missed).0;
            forall p :: p in db.plans ==> p in b.plans && FailuresKept(db.plans[p], b.plans[p])
  {
  }

  /** A job that works for an event of its own consumer has handled it once it is in the inbox. */
  lemma RecordedFits(a: Sys, j: JobId, db: Db, e: EventId, step: Step)
    requires j in a.jobs && JobOk(a, a.jobs[j]) && DbEvolves(a.db, db) && step in {Handled, RunningPlanner}
    requires a.jobs[j].step == Replanning(e) || a.jobs[j].step == Recording(e)
    requires e in a.db.outbox && (ConsumerOf(a.db.outbox[e].kind), e) in db.inbox
    ensures Fits(a, j, db, step)
  {
    assert e in db.outbox && EventEvolves(a.db.outbox[e], db.outbox[e]);
  }

  lemma PrepareKeepsSys(cfg: Config, a: Sys, j: JobId, q: PlanId, leaseOver: bool, missed: bool)
    requires SysInv(cfg, a) && At(a, j).Replanning? && EventKnown(a, At(a, j).event)
    requires a.db.outbox[At(a, j).event].kind.ReplanRequested? && q !in a.db.plans
    ensures SysInv(cfg, DoPrepare(a, j, q, leaseOver, missed)) && SysEvolves(a, DoPrepare(a, j, q, leaseOver, missed))
  {
    assert JobOk(a, a.jobs[j]);
    var e := a.jobs[j].step.event;
    var k := a.db.outbox[e].kind;
    PrepareKeeps(cfg, a.db, e, k, q, leaseOver, missed);
    PrepareRecords(a.db, e, k, q, leaseOver, missed);
    PrepareFailures(a.db, e, k, q, leaseOver, missed);
    var r := Prepare(a.db, e, k, q, leaseOver, missed);
    var step := if r.1.Prepared? then RunningPlanner else Handled;
    AttemptsStaySame(a.db, r.0, a.jobs[j].step);
    RecordedFits(a, j, r.0, e, step);
    PutKeeps(cfg, a, j, r.0, step);
  }

  /** A transaction that leaves all executions alone; the job stays with its event. */
  lemma SideStepKeeps(cfg: Config, a: Sys, j: JobId, db: Db, e: EventId, step: Step)
    requires SysInv(cfg, a) && j in a.jobs && Preserved(cfg, a.db, db) && db.plans == a.db.plans
    requires (a.jobs[j].step == Aggregating(e) && step == Resolving(e)) || (a.jobs[j].step == Resolving(e) && step == Recording(e))
    ensures SysInv(cfg, Put(a, db, j, step)) && SysEvolves(a, Put(a, db, j, step))
  {
    assert JobOk(a, a.jobs[j]);
    assert e in db.outbox && EventEvolves(a.db.outbox[e], db.outbox[e]);
    AttemptsStaySame(a.db, db, a.jobs[j].step);
    PutKeeps(cfg, a, j, db, step);
  }

  lemma AggregateKeeps(cfg: Config, a: Sys, j: JobId)
    requires SysInv(cfg, a)
    ensures SysInv(cfg, ExecDispatch(a, AggregateTurn(j))) && SysEvolves(a, ExecDispatch(a, AggregateTurn(j)))
  {
    PreservedRefl(cfg, a.db);
    if At(a, j).Aggregating? && EventKnown(a, At(a, j).event)
       && a.db.outbox[At(a, j).event].plan in a.db.plans
       && a.db.plans[a.db.outbox[At(a, j).event].plan].turn in a.db.turns {
      AggregateSettles(cfg, a, j, a.jobs[j].step.event);
    }
  }

  lemma AggregateSettles(cfg: Config, a: Sys, j: JobId, e: EventId)
    requires SysInv(cfg, a) && j in a.jobs && a.jobs[j].step == Aggregating(e) && EventKnown(a, e)
    requires a.db.outbox[e].plan in a.db.plans && a.db.plans[a.db.outbox[e].plan].turn in a.db.turns
    ensures var b := ExecDispatch(a, AggregateTurn(j));
            SysInv(cfg, b) && SysEvolves(a, b)
  {
    var p := a.db.outbox[e].plan;
    var t := a.db.plans[p].turn;
    if a.db.turns[t].status !in {ContextReady, Processing, TurnCompleted} {
      DropKeeps(cfg, a, j);
    } else {
      CompletedTurnKeeps(cfg, a, j, e, p, t);
    }
  }

  lemma CompletedTurnKeeps(cfg: Config, a: Sys, j: JobId, e: EventId, p: PlanId, t: TurnId)
    requires SysInv(cfg, a) && j in a.jobs && a.jobs[j].step == Aggregating(e) && t in a.db.turns
    ensures var b := Put(a, SetTurn(a.db, t, TurnCompleted), j, Resolving(e));
            SysInv(cfg, b) && SysEvolves(a, b)
  {
    TurnStatusKeeps(cfg, a.db, p, t, TurnCompleted);
    SideStepKeeps(cfg, a, j, SetTurn(a.db, t, TurnCompleted), e, Resolving(e));
  }

  lemma ResolveKeepsSys(cfg: Config, a: Sys, j: JobId)
    requires SysInv(cfg, a)
    ensures SysInv(cfg, ExecDispatch(a, ResolveQuestion(j))) && SysEvolves(a, ExecDispatch(a, ResolveQuestion(j)))
  {
    PreservedRefl(cfg, a.db);
    if At(a, j).Resolving? && EventKnown(a, At(a, j).event) {
      var e := a.jobs[j].step.event;
      ResolveKeeps(cfg, a.db, a.db.outbox[e].plan);
      SideStepKeeps(cfg, a, j, ResolveClarification(a.db, a.db.outbox[e].plan), e, Recording(e));
    }
  }

  lemma RecordKeepsSys(cfg: Config, a: Sys, j: JobId)
    requires SysInv(cfg, a)
    ensures SysInv(cfg, ExecDispatch(a, RecordAggregation(j))) && SysEvolves(a, ExecDispatch(a, RecordAggregation(j)))
  {
    PreservedRefl(cfg, a.db);
    if At(a, j).Recording? {
      assert JobOk(a, a.jobs[j]);
      var e := a.jobs[j].step.event;
      var db := RecordProcessed(a.db, e);
      RecordProcessedKeeps(cfg, a.db, e);
      AttemptsStaySame(a.db, db, a.jobs[j].step);
      RecordedFits(a, j, db, e, Handled);
      PutKeeps(cfg, a, j, db, Handled);
    }
  }
}
