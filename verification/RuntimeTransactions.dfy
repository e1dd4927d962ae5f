/**
  The task runtime's transactions on the database, and the proof that each keeps the
  invariant of the database, drivers included.
 */
module RuntimeTransactions {
  import opened Common
  import opened PlanDag
  import opened WorkflowRows
  import opened PlanLifecycle
  import opened PlanPreservation
  import opened WorkflowStore
  import opened WorkflowCommit

  // ---------- The transactions ----------

  /** A plan's row must exist for its transaction to start. */
  predicate Known(db: Db, p: PlanId) {
    p in db.plans && db.plans[p].turn in db.turns
  }

  predicate Recorded(db: Db, event: Option<EventId>) {
    event.Some? && (TaskRuntime, event.value) in db.inbox
  }

  /** The claim; None stands for an exception, which rolls everything back. The inbox row is
      added without a check, so a second commit for one event violates its unique constraint. */
  ghost function Claim(
    cfg: Config, db: Db, p: PlanId, event: Option<EventId>, wantedExecution: Option<ExecutionId>,
    wantedOperation: Option<OperationId>, ids: NewIds, id: EventId, now: int
  ): (r: (Db, Option<ClaimOutcome>)) {
    if !Known(db, p) then (db, None)
    else
      match ClaimNext(cfg, p, db.plans[p], event, wantedExecution, wantedOperation, ids, now)
      case Raised => (db, None)
      case Committed(rec, emit, out) =>
        var consume := if out.Recover? then None else event;
        if Recorded(db, consume) || rec.turn !in db.turns then (db, None)
        else (CommitPlan(db, p, rec, emit, id, consume, now), Some(out))
  }

  /** Commit the outcome of a plan transaction, if there is one. */
  function Finish<T>(db: Db, p: PlanId, r: Tx<T>, id: EventId, consume: Option<EventId>, now: int): (Db, Option<T>) {
    if r.Raised? || r.rec.turn !in db.turns then (db, None)
    else (CommitPlan(db, p, r.rec, r.emit, id, consume, now), Some(r.out))
  }

  ghost function CompleteTask(db: Db, s: Snapshot, refs: seq<string>, id: EventId, now: int): (Db, Option<()>) {
    if !Known(db, s.plan) then (db, None)
    else Finish(db, s.plan, Complete(db.plans[s.plan], s, refs, now), id, None, now)
  }

  function FailWithoutEffects(cfg: Config, db: Db, s: Snapshot, error: TaskError, id: EventId, now: int): (Db, Option<()>) {
    if !Known(db, s.plan) then (db, None)
    else Finish(db, s.plan, FailTask(cfg, db.plans[s.plan], s, error, now), id, None, now)
  }

  function Require(db: Db, s: Snapshot, error: TaskError, id: EventId, now: int): (Db, Option<()>) {
    if !Known(db, s.plan) then (db, None)
    else Finish(db, s.plan, RequireCompensation(db.plans[s.plan], s, error), id, None, now)
  }

  function Begin(db: Db, s: Snapshot, id: EventId, now: int): (Db, Option<nat>) {
    if !Known(db, s.plan) then (db, None)
    else Finish(db, s.plan, BeginCompensation(db.plans[s.plan], s), id, None, now)
  }

  /** The inbox row of a failed compensation is added only if it is not there yet. */
  function CompensationFailed(
    cfg: Config, db: Db, s: Snapshot, attempt: nat, event: Option<EventId>, id: EventId, now: int
  ): (Db, Option<()>)
    requires attempt >= 1
  {
    if !Known(db, s.plan) then (db, None)
    else Finish(db, s.plan, FailCompensation(cfg, db.plans[s.plan], s, attempt, now), id,
                if Recorded(db, event) then None else event, now)
  }

  /** The inbox row of a successful compensation is added without a check. */
  function CompensationDone(
    cfg: Config, db: Db, s: Snapshot, event: Option<EventId>, id: EventId, now: int
  ): (Db, Option<()>) {
    if !Known(db, s.plan) || Recorded(db, event) then (db, None)
    else Finish(db, s.plan, FinishCompensation(cfg, db.plans[s.plan], s, now), id, event, now)
  }

  // ---------- Drivers after a commit ----------

  lemma NewEventUnconsumed(db: Db, id: EventId, c: Consumer)
    requires EventsOk(db) && id !in db.outbox
    ensures (c, id) !in db.inbox
  {
  }

  /** A plan without a current task has no execution to drive. */
  lemma DrivenIdle(cfg: Config, b: Db, p: PlanId)
    requires p in b.plans && PlanInv(cfg, b.plans[p]) && b.plans[p].current.None?
    requires Open(b.plans[p].status) ==> HasPlain(b, p)
    requires b.plans[p].status in {ReplanPending, RetryPending} || AnswerPending(b, p) ==> HasReplan(b, p)
    requires b.plans[p].status == Completed ==> HasAggregation(b, p)
    ensures Driven(cfg, b, p)
  {
    forall x | x in b.plans[p].executions ensures ExecutionDriven(cfg, b, p, x) {
      if Active(b.plans[p].executions[x].status) {
        ActiveIsCurrent(b.plans[p], x);
      }
    }
  }

  /** A plan with a current task is driven when its one active execution is. */
  lemma DrivenBusy(cfg: Config, b: Db, p: PlanId, x: ExecutionId)
    requires p in b.plans && PlanInv(cfg, b.plans[p]) && b.plans[p].current.Some?
    requires x in b.plans[p].executions && Active(b.plans[p].executions[x].status)
    requires ExecutionDriven(cfg, b, p, x)
    ensures Driven(cfg, b, p)
  {
    forall y | y in b.plans[p].executions ensures ExecutionDriven(cfg, b, p, y) {
      if Active(b.plans[p].executions[y].status) {
        ActiveUnique(b.plans[p], x, y);
      }
    }
  }

  /** An unconsumed event stays one through a commit that consumes another event. */
  lemma LiveStays(
    db: Db, p: PlanId, rec: PlanRec, emit: Option<Emission>, id: EventId, consume: Option<EventId>, now: int, e: EventId)
    requires rec.turn in db.turns && FreshEvent(db, emit, id)
    requires LiveWakeup(db, p, e) && consume != Some(e)
    ensures var b := CommitPlan(db, p, rec, emit, id, consume, now);
            LiveWakeup(b, p, e) && b.outbox[e] == db.outbox[e]
  {
  }

  /** A wakeup added by a commit is unconsumed. */
  lemma EmittedIsLive(
    db: Db, p: PlanId, rec: PlanRec, emit: Emission, id: EventId, consume: Option<EventId>, now: int)
    requires rec.turn in db.turns && EventsOk(db) && id !in db.outbox && emit.EmitWakeup?
    requires GoodConsume(db, p, consume)
    ensures var b := CommitPlan(db, p, rec, Some(emit), id, consume, now);
            && LiveWakeup(b, p, id) && b.outbox[id].kind == PlanWakeup(emit.execution, emit.operation)
            && b.outbox[id].availableAt == emit.at
  {
  }

  // ---------- Claims ----------

  /** The event that a claim handles: a wakeup of this plan that has become available. */
  ghost predicate Handles(
    db: Db, p: PlanId, event: Option<EventId>, wantedExecution: Option<ExecutionId>,
    wantedOperation: Option<OperationId>, now: int)
  {
    event.Some? ==>
      && event.value in db.outbox && db.outbox[event.value].plan == p
      && db.outbox[event.value].kind == PlanWakeup(wantedExecution, wantedOperation)
      && db.outbox[event.value].availableAt <= now
  }

  /** Event e cannot be the event that execution x of the current task is waiting for. */
  ghost predicate NotTheDriver(cfg: Config, db: Db, p: PlanId, x: ExecutionId, e: EventId)
    requires p in db.plans && x in db.plans[p].executions
  {
    var rec, row := db.plans[p], db.plans[p].executions[x];
    && e in db.outbox && row.task in rec.tasks
    && (row.status == CompensationRequired ==>
          !Plain(db.outbox[e].kind) && db.outbox[e].kind != PlanWakeup(Some(x), Some(row.operation)))
    && (row.status == ExecRunning ==>
          !Plain(db.outbox[e].kind) || db.outbox[e].availableAt < LeaseEnd(cfg, rec.tasks[row.task]))
  }

  /** A look at a current execution that does not take over: the event it consumed was not the driver. */
  lemma LookKeepsDriver(
    cfg: Config, db: Db, p: PlanId, x: ExecutionId, rec: PlanRec, consume: Option<EventId>, id: EventId, now: int)
    requires DbInv(cfg, db) && p in db.plans && db.plans[p].current.Some?
    requires db.plans[p].current.value in db.plans[p].tasks && x in db.plans[p].executions
    requires db.plans[p].executions[x].task == db.plans[p].current.value && Active(db.plans[p].executions[x].status)
    requires rec == db.plans[p] || rec == AfterLook(cfg, db.plans[p], db.plans[p].current.value, x, now)
    requires consume.Some? ==> NotTheDriver(cfg, db, p, x, consume.value)
    requires PlanInv(cfg, rec)
    ensures Driven(cfg, CommitPlan(db, p, rec, None, id, consume, now), p)
  {
    var b := CommitPlan(db, p, rec, None, id, consume, now);
    var old_, e := db.plans[p], rec.executions[x];
    assert Driven(cfg, db, p) && ExecutionDriven(cfg, db, p, x);
    if old_.executions[x].status == ExecRunning {
      var at := LeaseEnd(cfg, old_.tasks[old_.current.value]);
      var d :| IsPlainAfter(db, p, at, d);
      LiveStays(db, p, rec, None, id, consume, now, d);
      assert IsPlainAfter(b, p, at, d) && IsMatching(b, p, x, e.operation, d);
    }
    if old_.executions[x].status == CompensationRequired {
      var d :| IsMatching(db, p, x, e.operation, d);
      LiveStays(db, p, rec, None, id, consume, now, d);
      assert IsMatching(b, p, x, e.operation, d);
    }
    DrivenBusy(cfg, b, p, x);
  }

  /** A claim on a current task leaves its plan as it was, or given up by the look at its lease. */
  ghost predicate Looked(
    cfg: Config, db: Db, p: PlanId, x: ExecutionId, wantedExecution: Option<ExecutionId>,
    wantedOperation: Option<OperationId>, now: int, r: Tx<ClaimOutcome>)
    requires p in db.plans && db.plans[p].current.Some?
    requires db.plans[p].current.value in db.plans[p].tasks && x in db.plans[p].executions
  {
    var rec := db.plans[p];
    && r.Committed? && r.emit.None?
    && (r.rec == rec || r.rec == AfterLook(cfg, rec, rec.current.value, x, now))
    && (|| r.out.Recover?
        || (rec.executions[x].status == ExecRunning && !Expired(cfg, rec, rec.current.value, now))
        || rec.executions[x].status == CompensationLocked
        || Mismatch(wantedExecution, x) || Mismatch(wantedOperation, rec.executions[x].operation))
  }

  /** The event of a claim that does not take over cannot be the driver of the current execution. */
  lemma LookEventIsNotDriver(
    cfg: Config, db: Db, p: PlanId, x: ExecutionId, event: Option<EventId>, wantedExecution: Option<ExecutionId>,
    wantedOperation: Option<OperationId>, now: int, r: Tx<ClaimOutcome>)
    requires p in db.plans && db.plans[p].current.Some?
    requires db.plans[p].current.value in db.plans[p].tasks && x in db.plans[p].executions
    requires db.plans[p].executions[x].task == db.plans[p].current.value
    requires Handles(db, p, event, wantedExecution, wantedOperation, now)
    requires Looked(cfg, db, p, x, wantedExecution, wantedOperation, now, r) && !r.out.Recover?
    ensures event.Some? ==> NotTheDriver(cfg, db, p, x, event.value)
  {
  }

  lemma ClaimLookResult(
    cfg: Config, db: Db, p: PlanId, event: Option<EventId>, wantedExecution: Option<ExecutionId>,
    wantedOperation: Option<OperationId>, ids: NewIds, id: EventId, now: int)
    requires Known(db, p)
    requires var r := ClaimNext(cfg, p, db.plans[p], event, wantedExecution, wantedOperation, ids, now);
             r.Committed? && r.emit.None? && r.rec.turn == db.plans[p].turn
    ensures var r := ClaimNext(cfg, p, db.plans[p], event, wantedExecution, wantedOperation, ids, now);
            var consume := if r.out.Recover? then None else event;
            Claim(cfg, db, p, event, wantedExecution, wantedOperation, ids, id, now) ==
              if Recorded(db, consume) then (db, None)
              else (CommitPlan(db, p, r.rec, None, id, consume, now), Some(r.out))
  {
  }

  lemma ClaimOnCurrentKeeps(
    cfg: Config, db: Db, p: PlanId, event: Option<EventId>, wantedExecution: Option<ExecutionId>,
    wantedOperation: Option<OperationId>, ids: NewIds, id: EventId, now: int)
    requires DbInv(cfg, db) && p in db.plans && db.plans[p].current.Some?
    requires Handles(db, p, event, wantedExecution, wantedOperation, now)
    ensures Preserved(cfg, db, Claim(cfg, db, p, event, wantedExecution, wantedOperation, ids, id, now).0)
  {
    var rec := db.plans[p];
    var r := ClaimNext(cfg, p, rec, event, wantedExecution, wantedOperation, ids, now);
    var x := RecoverFinds(cfg, rec, now);
    ClaimLooks(cfg, p, rec, event, wantedExecution, wantedOperation, ids, now, x);
    assert Looked(cfg, db, p, x, wantedExecution, wantedOperation, now, r);
    ClaimLookResult(cfg, db, p, event, wantedExecution, wantedOperation, ids, id, now);
    PreservedRefl(cfg, db);
    if r.out.Recover? {
      LookCommits(cfg, db, p, x, r.rec, None, id, now);
    } else if !Recorded(db, event) {
      LookEventIsNotDriver(cfg, db, p, x, event, wantedExecution, wantedOperation, now, r);
      LookCommits(cfg, db, p, x, r.rec, event, id, now);
    }
  }

  lemma LookCommits(
    cfg: Config, db: Db, p: PlanId, x: ExecutionId, rec: PlanRec, consume: Option<EventId>, id: EventId, now: int)
    requires DbInv(cfg, db) && p in db.plans && db.plans[p].current.Some?
    requires db.plans[p].current.value in db.plans[p].tasks && x in db.plans[p].executions
    requires db.plans[p].executions[x].task == db.plans[p].current.value && Active(db.plans[p].executions[x].status)
    requires rec == db.plans[p] || rec == AfterLook(cfg, db.plans[p], db.plans[p].current.value, x, now)
    requires GoodConsume(db, p, consume)
    requires consume.Some? ==> NotTheDriver(cfg, db, p, x, consume.value)
    ensures Preserved(cfg, db, CommitPlan(db, p, rec, None, id, consume, now))
  {
    AfterLookKeeps(cfg, db.plans[p], db.plans[p].current.value, x, now);
    EvolvesRefl(db.plans[p]);
    LookKeepsDriver(cfg, db, p, x, rec, consume, id, now);
    CommitKeeps(cfg, db, p, rec, None, id, consume, now);
  }

  /** A wakeup is consumed without any effect on a plan that cannot use it. */
  lemma IgnoredKeeps(cfg: Config, db: Db, p: PlanId, consume: Option<EventId>, id: EventId, now: int)
    requires DbInv(cfg, db) && p in db.plans && db.plans[p].current.None? && GoodConsume(db, p, consume)
    requires (Open(db.plans[p].status) && consume.Some?) ==> !Plain(db.outbox[consume.value].kind)
    ensures Preserved(cfg, db, CommitPlan(db, p, db.plans[p], None, id, consume, now))
  {
    var rec := db.plans[p];
    var b := CommitPlan(db, p, rec, None, id, consume, now);
    EvolvesRefl(rec);
    assert Driven(cfg, db, p);
    if Open(rec.status) {
      var d :| IsPlain(db, p, d);
      LiveStays(db, p, rec, None, id, consume, now, d);
      assert IsPlain(b, p, d);
    }
    if rec.status in {ReplanPending, RetryPending} || AnswerPending(db, p) {
      var d :| IsReplan(db, p, d);
      assert IsReplan(b, p, d);
    }
    if rec.status == Completed {
      var d :| IsAggregation(db, p, d);
      assert IsAggregation(b, p, d);
    }
    DrivenIdle(cfg, b, p);
    CommitKeeps(cfg, db, p, rec, None, id, consume, now);
  }

  /** The new execution is driven by the wakeup at the end of its lease. */
  lemma StartDriven(
    cfg: Config, db: Db, p: PlanId, t: TaskId, ids: NewIds, consume: Option<EventId>, id: EventId, now: int)
    requires DbInv(cfg, db) && p in db.plans && t in db.plans[p].tasks
    requires id !in db.outbox && GoodConsume(db, p, consume)
    requires PlanInv(cfg, StartAttempt(cfg, Requeue(db.plans[p]), t, ids, consume, now))
    ensures var rec := StartAttempt(cfg, Requeue(db.plans[p]), t, ids, consume, now);
            var emit := EmitWakeup(None, None, now + cfg.Of(db.plans[p].tasks[t].capability).timeout);
            Driven(cfg, CommitPlan(db, p, rec, Some(emit), id, consume, now), p)
  {
    var rec := StartAttempt(cfg, Requeue(db.plans[p]), t, ids, consume, now);
    var emit := EmitWakeup(None, None, now + cfg.Of(db.plans[p].tasks[t].capability).timeout);
    var b := CommitPlan(db, p, rec, Some(emit), id, consume, now);
    EmittedIsLive(db, p, rec, emit, id, consume, now);
    assert IsPlainAfter(b, p, LeaseEnd(cfg, rec.tasks[t]), id);
    DrivenBusy(cfg, b, p, ids.execution);
  }

  /** A claim that starts task t commits the new attempt, the wakeup at the end of its lease and the inbox row. */
  lemma ClaimStartResult(
    cfg: Config, db: Db, p: PlanId, event: Option<EventId>, ids: NewIds, id: EventId, now: int, t: TaskId)
    requires Known(db, p) && db.plans[p].current.None? && Open(db.plans[p].status) && !Recorded(db, event)
    requires t in db.plans[p].tasks && NextRunnable(Requeue(db.plans[p])) == Some(t)
    ensures var rec := StartAttempt(cfg, Requeue(db.plans[p]), t, ids, event, now);
            var emit := EmitWakeup(None, None, now + cfg.Of(db.plans[p].tasks[t].capability).timeout);
            Claim(cfg, db, p, event, None, None, ids, id, now) ==
              (CommitPlan(db, p, rec, Some(emit), id, event, now),
               Some(Claimed(SnapshotOf(p, ids.execution, rec.executions[ids.execution]))))
  {
    ClaimStartsResult(cfg, p, db.plans[p], event, ids, now, t);
  }

  lemma StartNewExecutions(cfg: Config, rec: PlanRec, t: TaskId, ids: NewIds, event: Option<EventId>, now: int)
    requires t in rec.tasks
    ensures NewExecutionsFor(rec, StartAttempt(cfg, Requeue(rec), t, ids, event, now), event)
  {
  }

  lemma StartCommits(
    cfg: Config, db: Db, p: PlanId, t: TaskId, ids: NewIds, event: Option<EventId>, id: EventId, now: int)
    requires DbInv(cfg, db) && p in db.plans && Open(db.plans[p].status) && t in db.plans[p].tasks
    requires GoodConsume(db, p, event) && id !in db.outbox
    requires PlanInv(cfg, StartAttempt(cfg, Requeue(db.plans[p]), t, ids, event, now))
    requires Evolves(db.plans[p], StartAttempt(cfg, Requeue(db.plans[p]), t, ids, event, now))
    ensures var rec := StartAttempt(cfg, Requeue(db.plans[p]), t, ids, event, now);
            var emit := EmitWakeup(None, None, now + cfg.Of(db.plans[p].tasks[t].capability).timeout);
            Preserved(cfg, db, CommitPlan(db, p, rec, Some(emit), id, event, now))
  {
    var rec := StartAttempt(cfg, Requeue(db.plans[p]), t, ids, event, now);
    var emit := EmitWakeup(None, None, now + cfg.Of(db.plans[p].tasks[t].capability).timeout);
    StartDriven(cfg, db, p, t, ids, event, id, now);
    StartNewExecutions(cfg, db.plans[p], t, ids, event, now);
    CommitKeeps(cfg, db, p, rec, Some(emit), id, event, now);
  }

  lemma ClaimStartKeeps(
    cfg: Config, db: Db, p: PlanId, event: Option<EventId>, ids: NewIds, id: EventId, now: int)
    requires DbInv(cfg, db) && p in db.plans && db.plans[p].current.None? && Open(db.plans[p].status)
    requires GoodConsume(db, p, event) && !Recorded(db, event)
    requires id !in db.outbox && ids.execution !in db.plans[p].executions
    ensures var r := Claim(cfg, db, p, event, None, None, ids, id, now);
            Preserved(cfg, db, r.0) && r.1.Some? && r.1.value.Claimed?
  {
    var t := ClaimStarts(cfg, p, db.plans[p], event, ids, now);
    StartCommits(cfg, db, p, t, ids, event, id, now);
    ClaimStartResult(cfg, db, p, event, ids, id, now, t);
  }

  lemma ClaimStartRefused(
    cfg: Config, db: Db, p: PlanId, event: Option<EventId>, ids: NewIds, id: EventId, now: int)
    requires DbInv(cfg, db) && p in db.plans && db.plans[p].current.None? && Open(db.plans[p].status)
    requires Recorded(db, event) && ids.execution !in db.plans[p].executions
    ensures Claim(cfg, db, p, event, None, None, ids, id, now).0 == db
  {
    assert PlanInv(cfg, db.plans[p]);
    var t := ClaimStarts(cfg, p, db.plans[p], event, ids, now);
    ClaimStartsResult(cfg, p, db.plans[p], event, ids, now, t);
  }

  /** A plan that is idle and not published, or a targeted wakeup for it: nothing but the inbox changes. */
  lemma ClaimIgnores(
    cfg: Config, db: Db, p: PlanId, event: Option<EventId>, wantedExecution: Option<ExecutionId>,
    wantedOperation: Option<OperationId>, ids: NewIds, id: EventId, now: int)
    requires Known(db, p) && db.plans[p].current.None?
    requires wantedExecution.Some? || wantedOperation.Some? || !Open(db.plans[p].status)
    ensures Claim(cfg, db, p, event, wantedExecution, wantedOperation, ids, id, now) ==
            if Recorded(db, event) then (db, None)
            else (CommitPlan(db, p, db.plans[p], None, id, event, now), Some(Terminal))
  {
  }

  /** A claim keeps the database invariant: its event may be consumed, but never the last driver. */
  lemma ClaimDbKeeps(
    cfg: Config, db: Db, p: PlanId, event: Option<EventId>, wantedExecution: Option<ExecutionId>,
    wantedOperation: Option<OperationId>, ids: NewIds, id: EventId, now: int)
    requires DbInv(cfg, db)
    requires Handles(db, p, event, wantedExecution, wantedOperation, now)
    requires id !in db.outbox && (p in db.plans ==> ids.execution !in db.plans[p].executions)
    ensures Preserved(cfg, db, Claim(cfg, db, p, event, wantedExecution, wantedOperation, ids, id, now).0)
  {
    PreservedRefl(cfg, db);
    if !Known(db, p) {
    } else if db.plans[p].current.Some? {
      ClaimOnCurrentKeeps(cfg, db, p, event, wantedExecution, wantedOperation, ids, id, now);
    } else if wantedExecution.None? && wantedOperation.None? && Open(db.plans[p].status) {
      if Recorded(db, event) {
        ClaimStartRefused(cfg, db, p, event, ids, id, now);
      } else {
        ClaimStartKeeps(cfg, db, p, event, ids, id, now);
      }
    } else {
      ClaimIgnores(cfg, db, p, event, wantedExecution, wantedOperation, ids, id, now);
      if !Recorded(db, event) {
        IgnoredKeeps(cfg, db, p, event, id, now);
      }
    }
  }

  // ---------- Completion, failure and compensation ----------

  /** The plan is let go of: the event added by the transaction is its driver. */
  lemma LetGoDriven(
    cfg: Config, db: Db, p: PlanId, r: Tx<()>, id: EventId, consume: Option<EventId>, now: int)
    requires EventsOk(db) && p in db.plans && db.plans[p].status == Running
    requires LetsGo(db.plans[p], r) && PlanInv(cfg, r.rec) && r.rec.turn in db.turns
    requires id !in db.outbox && GoodConsume(db, p, consume)
    ensures Driven(cfg, CommitPlan(db, p, r.rec, r.emit, id, consume, now), p)
  {
    var emit := r.emit.value;
    var b := CommitPlan(db, p, r.rec, r.emit, id, consume, now);
    if emit.EmitWakeup? {
      EmittedIsLive(db, p, r.rec, emit, id, consume, now);
      assert IsPlain(b, p, id);
    } else if emit.EmitReplan? {
      NewEventUnconsumed(db, id, PlanningReplan);
      assert IsReplan(b, p, id);
    } else {
      assert IsAggregation(b, p, id);
    }
    DrivenIdle(cfg, b, p);
  }

  lemma LetGoKeeps(
    cfg: Config, db: Db, p: PlanId, r: Tx<()>, id: EventId, consume: Option<EventId>, now: int)
    requires DbInv(cfg, db) && p in db.plans && db.plans[p].status == Running
    requires LetsGo(db.plans[p], r) && PlanInv(cfg, r.rec) && Evolves(db.plans[p], r.rec)
    requires id !in db.outbox && GoodConsume(db, p, consume)
    ensures Preserved(cfg, db, Finish(db, p, r, id, consume, now).0)
  {
    LetGoDriven(cfg, db, p, r, id, consume, now);
    CommitKeeps(cfg, db, p, r.rec, r.emit, id, consume, now);
  }

  lemma CompleteDbKeeps(cfg: Config, db: Db, s: Snapshot, refs: seq<string>, id: EventId, now: int)
    requires DbInv(cfg, db) && id !in db.outbox
    ensures Preserved(cfg, db, CompleteTask(db, s, refs, id, now).0)
  {
    PreservedRefl(cfg, db);
    if Known(db, s.plan) && OwnsRunning(db.plans[s.plan], s) {
      assert PlanInv(cfg, db.plans[s.plan]);
      OwnerIsCurrent(db.plans[s.plan], s);
      CompleteKeeps(cfg, db.plans[s.plan], s, refs, now);
      LetGoKeeps(cfg, db, s.plan, Complete(db.plans[s.plan], s, refs, now), id, None, now);
    }
  }

  lemma FailDbKeeps(cfg: Config, db: Db, s: Snapshot, error: TaskError, id: EventId, now: int)
    requires DbInv(cfg, db) && id !in db.outbox
    ensures Preserved(cfg, db, FailWithoutEffects(cfg, db, s, error, id, now).0)
  {
    PreservedRefl(cfg, db);
    if Known(db, s.plan) && OwnsRunning(db.plans[s.plan], s) {
      assert PlanInv(cfg, db.plans[s.plan]);
      OwnerIsCurrent(db.plans[s.plan], s);
      FailTaskKeeps(cfg, db.plans[s.plan], s, error, now);
      LetGoKeeps(cfg, db, s.plan, FailTask(cfg, db.plans[s.plan], s, error, now), id, None, now);
    }
  }

  /** The event behind a recovery has not been consumed by its claim, and it may have been since. */
  lemma CompensationDoneDbKeeps(
    cfg: Config, db: Db, s: Snapshot, event: Option<EventId>, id: EventId, now: int)
    requires DbInv(cfg, db) && id !in db.outbox && IsWakeupOf(db, s.plan, event)
    ensures Preserved(cfg, db, CompensationDone(cfg, db, s, event, id, now).0)
  {
    PreservedRefl(cfg, db);
    if Known(db, s.plan) && !Recorded(db, event) && OwnsCompensation(db.plans[s.plan], s) {
      assert PlanInv(cfg, db.plans[s.plan]);
      OwnerIsCurrent(db.plans[s.plan], s);
      FinishCompensationKeeps(cfg, db.plans[s.plan], s, now);
      LetGoKeeps(cfg, db, s.plan, FinishCompensation(cfg, db.plans[s.plan], s, now), id, event, now);
    }
  }

  /** The event that a recovery was started for, if any, is a wakeup of the same plan. */
  ghost predicate IsWakeupOf(db: Db, p: PlanId, event: Option<EventId>) {
    event.Some? ==> event.value in db.outbox && db.outbox[event.value].plan == p && db.outbox[event.value].kind.PlanWakeup?
  }

  /** The current execution gets a new row and stays active: it must still be driven afterwards. */
  lemma BusyKeeps(
    cfg: Config, db: Db, p: PlanId, x: ExecutionId, row: Execution, emit: Option<Emission>, id: EventId,
    consume: Option<EventId>, now: int)
    requires DbInv(cfg, db) && p in db.plans && x in db.plans[p].executions && Active(row.status)
    requires var rec := SetExecution(db.plans[p], x, row);
             && PlanInv(cfg, rec) && Evolves(db.plans[p], rec)
             && ExecutionDriven(cfg, CommitPlan(db, p, rec, emit, id, consume, now), p, x)
    requires emit.Some? ==> emit.value.EmitWakeup?
    requires FreshEvent(db, emit, id) && GoodConsume(db, p, consume)
    ensures Preserved(cfg, db, CommitPlan(db, p, SetExecution(db.plans[p], x, row), emit, id, consume, now))
  {
    var rec := SetExecution(db.plans[p], x, row);
    var b := CommitPlan(db, p, rec, emit, id, consume, now);
    ActiveIsCurrent(rec, x);
    DrivenBusy(cfg, b, p, x);
    CommitKeeps(cfg, db, p, rec, emit, id, consume, now);
  }

  lemma RequireDriven(cfg: Config, db: Db, p: PlanId, x: ExecutionId, error: TaskError, id: EventId, now: int)
    requires p in db.plans && db.plans[p].turn in db.turns
    requires x in db.plans[p].executions && db.plans[p].executions[x].status == ExecRunning
    requires db.plans[p].executions[x].task in db.plans[p].tasks && ExecutionDriven(cfg, db, p, x)
    ensures var rec := SetExecution(db.plans[p], x, RequireRow(db.plans[p].executions[x], error));
            ExecutionDriven(cfg, CommitPlan(db, p, rec, None, id, None, now), p, x)
  {
    var e := db.plans[p].executions[x];
    var rec := SetExecution(db.plans[p], x, RequireRow(e, error));
    var at := LeaseEnd(cfg, db.plans[p].tasks[e.task]);
    var d :| IsPlainAfter(db, p, at, d);
    assert IsMatching(CommitPlan(db, p, rec, None, id, None, now), p, x, e.operation, d);
  }

  lemma RequireDbKeeps(cfg: Config, db: Db, s: Snapshot, error: TaskError, id: EventId, now: int)
    requires DbInv(cfg, db)
    ensures Preserved(cfg, db, Require(db, s, error, id, now).0)
  {
    PreservedRefl(cfg, db);
    if Known(db, s.plan) && OwnsRunning(db.plans[s.plan], s) {
      var rec := db.plans[s.plan];
      assert PlanInv(cfg, rec);
      OwnerIsCurrent(rec, s);
      RequireKeeps(cfg, rec, s.execution, error);
      assert Driven(cfg, db, s.plan);
      RequireDriven(cfg, db, s.plan, s.execution, error, id, now);
      BusyKeeps(cfg, db, s.plan, s.execution, RequireRow(rec.executions[s.execution], error), None, id, None, now);
    }
  }

  /** A row that still needs its compensation is driven by whatever drove it before, if that is not consumed. */
  lemma StillDriven(
    cfg: Config, db: Db, p: PlanId, x: ExecutionId, row: Execution, id: EventId, now: int)
    requires p in db.plans && db.plans[p].turn in db.turns && x in db.plans[p].executions
    requires db.plans[p].executions[x].status == CompensationRequired && ExecutionDriven(cfg, db, p, x)
    requires row.status == CompensationRequired && row.operation == db.plans[p].executions[x].operation
    ensures ExecutionDriven(cfg, CommitPlan(db, p, SetExecution(db.plans[p], x, row), None, id, None, now), p, x)
  {
    var b := CommitPlan(db, p, SetExecution(db.plans[p], x, row), None, id, None, now);
    var d :| IsMatching(db, p, x, row.operation, d);
    assert IsMatching(b, p, x, row.operation, d);
  }

  lemma OwnerIsDriven(cfg: Config, db: Db, s: Snapshot)
    requires PlansOk(cfg, db) && DrivenOk(cfg, db) && Known(db, s.plan) && OwnsCompensation(db.plans[s.plan], s)
    ensures ExecutionDriven(cfg, db, s.plan, s.execution)
  {
    assert PlanInv(cfg, db.plans[s.plan]);
    OwnerIsCurrent(db.plans[s.plan], s);
    assert Driven(cfg, db, s.plan);
  }

  function BegunPlan(rec: PlanRec, s: Snapshot): PlanRec
    requires s.execution in rec.executions
  {
    SetExecution(rec, s.execution, BegunRow(rec.executions[s.execution]))
  }

  lemma BegunRowKeeps(cfg: Config, db: Db, s: Snapshot)
    requires PlansOk(cfg, db) && Known(db, s.plan) && OwnsCompensation(db.plans[s.plan], s)
    ensures PlanInv(cfg, BegunPlan(db.plans[s.plan], s)) && Evolves(db.plans[s.plan], BegunPlan(db.plans[s.plan], s))
  {
    assert PlanInv(cfg, db.plans[s.plan]);
    BeginKeeps(cfg, db.plans[s.plan], s);
  }

  lemma BegunDriven(cfg: Config, db: Db, s: Snapshot, id: EventId, now: int)
    requires PlansOk(cfg, db) && DrivenOk(cfg, db) && Known(db, s.plan) && OwnsCompensation(db.plans[s.plan], s)
    ensures var b := CommitPlan(db, s.plan, BegunPlan(db.plans[s.plan], s), None, id, None, now);
            ExecutionDriven(cfg, b, s.plan, s.execution)
  {
    OwnerIsDriven(cfg, db, s);
    StillDriven(cfg, db, s.plan, s.execution, BegunRow(db.plans[s.plan].executions[s.execution]), id, now);
  }

  lemma BegunKeeps(cfg: Config, db: Db, s: Snapshot, id: EventId, now: int)
    requires DbInv(cfg, db) && Known(db, s.plan) && OwnsCompensation(db.plans[s.plan], s)
    ensures Preserved(cfg, db, CommitPlan(db, s.plan, BegunPlan(db.plans[s.plan], s), None, id, None, now))
  {
    BegunRowKeeps(cfg, db, s);
    BegunDriven(cfg, db, s, id, now);
    var row := BegunRow(db.plans[s.plan].executions[s.execution]);
    BusyKeeps(cfg, db, s.plan, s.execution, row, None, id, None, now);
  }

  lemma BeginDbKeeps(cfg: Config, db: Db, s: Snapshot, id: EventId, now: int)
    requires DbInv(cfg, db)
    ensures Preserved(cfg, db, Begin(db, s, id, now).0)
  {
    if Known(db, s.plan) && OwnsCompensation(db.plans[s.plan], s) {
      BegunKeeps(cfg, db, s, id, now);
    } else {
      PreservedRefl(cfg, db);
    }
  }

  predicate IsTargeted(emit: Emission, x: ExecutionId, o: OperationId) {
    emit.EmitWakeup? && emit.execution == Some(x) && emit.operation == Some(o)
  }

  /** The row and the event of a compensation failure. */
  lemma FailCompensationResult(cfg: Config, rec: PlanRec, s: Snapshot, attempt: nat, now: int) returns (row: Execution)
    requires OwnsCompensation(rec, s) && rec.executions[s.execution].compensationAttempts == attempt && attempt >= 1
    ensures var r := FailCompensation(cfg, rec, s, attempt, now);
            && r.Committed? && r.rec == SetExecution(rec, s.execution, row) && row.operation == s.operation
            && (r.emit.None? ==> row.status == CompensationLocked)
            && (r.emit.Some? ==> row.status == CompensationRequired && IsTargeted(r.emit.value, s.execution, s.operation))
  {
    row := FailCompensation(cfg, rec, s, attempt, now).rec.executions[s.execution];
  }

  /** Every failure is recorded for a later attempt than the ones before it. */
  ghost predicate NotYetFailed(db: Db, s: Snapshot, attempt: nat) {
    && attempt >= 1
    && (s.plan in db.plans && s.execution in db.plans[s.plan].executions ==>
          forall f :: f in db.plans[s.plan].executions[s.execution].failures ==> f.attempt != attempt)
  }

  lemma FailedCompensationDriven(
    cfg: Config, db: Db, p: PlanId, x: ExecutionId, row: Execution, emit: Option<Emission>, id: EventId,
    consume: Option<EventId>, now: int)
    requires p in db.plans && db.plans[p].turn in db.turns && EventsOk(db)
    requires x in db.plans[p].executions && id !in db.outbox && GoodConsume(db, p, consume)
    requires emit.None? ==> row.status == CompensationLocked
    requires emit.Some? ==> row.status == CompensationRequired && IsTargeted(emit.value, x, row.operation)
    ensures ExecutionDriven(cfg, CommitPlan(db, p, SetExecution(db.plans[p], x, row), emit, id, consume, now), p, x)
  {
    var rec := SetExecution(db.plans[p], x, row);
    if emit.Some? {
      EmittedIsLive(db, p, rec, emit.value, id, consume, now);
      assert IsMatching(CommitPlan(db, p, rec, emit, id, consume, now), p, x, row.operation, id);
    }
  }

  lemma CompensationFailedCommits(
    cfg: Config, db: Db, s: Snapshot, attempt: nat, id: EventId, consume: Option<EventId>, now: int)
    requires DbInv(cfg, db) && id !in db.outbox && GoodConsume(db, s.plan, consume) && NotYetFailed(db, s, attempt)
    requires s.plan in db.plans && OwnsCompensation(db.plans[s.plan], s)
    requires db.plans[s.plan].executions[s.execution].compensationAttempts == attempt
    ensures var r := FailCompensation(cfg, db.plans[s.plan], s, attempt, now);
            r.Committed? && Preserved(cfg, db, CommitPlan(db, s.plan, r.rec, r.emit, id, consume, now))
  {
    var p, rec := s.plan, db.plans[s.plan];
    FailCompensationKeeps(cfg, rec, s, attempt, now);
    var row := FailCompensationResult(cfg, rec, s, attempt, now);
    var r := FailCompensation(cfg, rec, s, attempt, now);
    assert r.rec == SetExecution(rec, s.execution, row);
    FailedCompensationDriven(cfg, db, p, s.execution, row, r.emit, id, consume, now);
    BusyKeeps(cfg, db, p, s.execution, row, r.emit, id, consume, now);
  }

  lemma CompensationFailedDbKeeps(
    cfg: Config, db: Db, s: Snapshot, attempt: nat, event: Option<EventId>, id: EventId, now: int)
    requires DbInv(cfg, db) && id !in db.outbox && IsWakeupOf(db, s.plan, event) && NotYetFailed(db, s, attempt)
    ensures Preserved(cfg, db, CompensationFailed(cfg, db, s, attempt, event, id, now).0)
  {
    PreservedRefl(cfg, db);
    if Known(db, s.plan) && OwnsCompensation(db.plans[s.plan], s)
       && db.plans[s.plan].executions[s.execution].compensationAttempts == attempt {
      var consume := if Recorded(db, event) then None else event;
      CompensationFailedCommits(cfg, db, s, attempt, id, consume, now);
    }
  }
}
