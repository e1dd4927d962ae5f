/**
  What every run of the workflow engine guarantees. The statements are about
  `Run(cfg, INITIAL, actions)` for every sequence of actions: crashes, duplicate and late
  deliveries, expired leases, lost publications and concurrent workers are all actions.
 */
module WorkflowTheorems {
  import opened Common
  import opened PlanDag
  import opened WorkflowRows
  import opened PlanLifecycle
  import opened PlanPreservation
  import opened WorkflowStore
  import opened WorkflowCommit
  import opened RuntimeTransactions
  import opened ReplanTransactions
  import opened WorkflowSystem
  import opened SystemRuns

  // ---------- No lost driver ----------

  /** The event is on its way: not yet published, given up by the publisher, or waiting in the stream. */
  ghost predicate UnderWay(st: Sys, e: EventId) {
    && e in st.db.outbox
    && (|| st.db.outbox[e].status == EventPending || st.db.outbox[e].status == DeadLetter
        || exists n :: n in st.stream && st.stream[n] == e && n !in st.acked)
  }

  /** An event that has not been consumed is under way: acknowledged entries have been consumed. */
  lemma UnconsumedIsUnderWay(st: Sys, e: EventId)
    requires StreamOk(st) && e in st.db.outbox && !Consumed(st.db, e)
    ensures UnderWay(st, e)
  {
    if st.db.outbox[e].status == Published {
      assert InStream(st, e);
      var n :| n in st.stream && st.stream[n] == e;
      assert n in st.acked ==> Done(st, st.stream[n]);
      assert n in st.stream && st.stream[n] == e && n !in st.acked;
    }
  }

  ghost predicate IsIdleDriver(st: Sys, p: PlanId, e: EventId) {
    UnderWay(st, e) && IsPlain(st.db, p, e)
  }

  ghost predicate IsLeaseDriver(st: Sys, p: PlanId, at: int, e: EventId) {
    UnderWay(st, e) && IsPlainAfter(st.db, p, at, e)
  }

  ghost predicate IsCompensationDriver(st: Sys, p: PlanId, x: ExecutionId, o: OperationId, e: EventId) {
    UnderWay(st, e) && IsMatching(st.db, p, x, o, e)
  }

  ghost predicate IsReplanDriver(st: Sys, p: PlanId, e: EventId) {
    UnderWay(st, e) && IsReplan(st.db, p, e)
  }

  ghost predicate IsAggregationDriver(st: Sys, p: PlanId, e: EventId) {
    IsAggregation(st.db, p, e) && (Done(st, e) || UnderWay(st, e))
  }

  /** An open plan with nothing current waits for a plain wakeup. */
  lemma IdlePlanIsDriven(cfg: Config, st: Sys, p: PlanId) returns (e: EventId)
    requires SysInv(cfg, st) && p in st.db.plans && Open(st.db.plans[p].status) && st.db.plans[p].current.None?
    ensures IsIdleDriver(st, p, e)
  {
    assert Driven(cfg, st.db, p);
    e :| IsPlain(st.db, p, e);
    UnconsumedIsUnderWay(st, e);
  }

  /** An open plan with a current task has one active execution: running, to be compensated, or locked. */
  lemma BusyPlanIsDriven(cfg: Config, st: Sys, p: PlanId) returns (x: ExecutionId, e: EventId)
    requires SysInv(cfg, st) && p in st.db.plans && st.db.plans[p].current.Some?
    ensures var rec := st.db.plans[p];
            && rec.current.value in rec.tasks && Latest(rec, rec.current.value) == Some(x) && Active(rec.executions[x].status)
            && (rec.executions[x].status == ExecRunning ==>
                  IsLeaseDriver(st, p, LeaseEnd(cfg, rec.tasks[rec.current.value]), e))
            && (rec.executions[x].status == CompensationRequired ==>
                  IsCompensationDriver(st, p, x, rec.executions[x].operation, e))
  {
    var rec := st.db.plans[p];
    assert PlanInv(cfg, rec) && Driven(cfg, st.db, p);
    var t := rec.current.value;
    assert t in rec.tasks;
    assert TaskBounded(cfg, rec.tasks[t]);
    x := CurrentHasActive(rec);
    assert ExecutionDriven(cfg, st.db, p, x);
    e := 0;
    if rec.executions[x].status == ExecRunning {
      e :| IsPlainAfter(st.db, p, LeaseEnd(cfg, rec.tasks[t]), e);
      UnconsumedIsUnderWay(st, e);
    } else if rec.executions[x].status == CompensationRequired {
      e :| IsMatching(st.db, p, x, rec.executions[x].operation, e);
      UnconsumedIsUnderWay(st, e);
    }
  }

  /** A plan that waits for its next revision has its replan event under way. */
  lemma ReplanIsDriven(cfg: Config, st: Sys, p: PlanId) returns (e: EventId)
    requires SysInv(cfg, st) && p in st.db.plans
    requires st.db.plans[p].status == ReplanPending || st.db.plans[p].status == RetryPending || AnswerPending(st.db, p)
    ensures IsReplanDriver(st, p, e)
  {
    assert Driven(cfg, st.db, p);
    e :| IsReplan(st.db, p, e);
    UnconsumedIsUnderWay(st, e);
  }

  /** A completed plan has its aggregation event: under way, or aggregated already. */
  lemma CompletedIsDriven(cfg: Config, st: Sys, p: PlanId) returns (e: EventId)
    requires SysInv(cfg, st) && p in st.db.plans && st.db.plans[p].status == Completed
    ensures IsAggregationDriver(st, p, e)
  {
    assert Driven(cfg, st.db, p);
    e :| IsAggregation(st.db, p, e);
    if !Consumed(st.db, e) {
      UnconsumedIsUnderWay(st, e);
    }
  }

  /** No lost driver: unless a compensation is locked, every open plan has an event under way that moves it on. */
  lemma NoLostDriver(cfg: Config, actions: seq<Action>, p: PlanId) returns (e: EventId)
    requires var st := Run(cfg, INITIAL, actions);
             && p in st.db.plans && Open(st.db.plans[p].status)
             && forall x :: x in st.db.plans[p].executions ==> st.db.plans[p].executions[x].status != CompensationLocked
    ensures var st := Run(cfg, INITIAL, actions);
            var rec := st.db.plans[p];
            && UnderWay(st, e) && LiveWakeup(st.db, p, e)
            && (rec.current.None? ==> Plain(st.db.outbox[e].kind))
            && (rec.current.Some? ==>
                  rec.current.value in rec.tasks && Latest(rec, rec.current.value).Some?
                  && var x := Latest(rec, rec.current.value).value;
                     || (rec.executions[x].status == ExecRunning && Plain(st.db.outbox[e].kind)
                         && st.db.outbox[e].availableAt >= LeaseEnd(cfg, rec.tasks[rec.current.value]))
                     || (rec.executions[x].status == CompensationRequired
                         && (Plain(st.db.outbox[e].kind)
                             || st.db.outbox[e].kind == PlanWakeup(Some(x), Some(rec.executions[x].operation)))))
  {
    var st := Run(cfg, INITIAL, actions);
    Reachable(cfg, actions);
    if st.db.plans[p].current.None? {
      e := IdlePlanIsDriven(cfg, st, p);
    } else {
      var x;
      x, e := BusyPlanIsDriven(cfg, st, p);
    }
  }

  /** The event that a busy plan waits for has become available: its lease has ended, or its compensation is due. */
  ghost predicate IsDueDriver(cfg: Config, st: Sys, p: PlanId, x: ExecutionId, e: EventId)
    requires p in st.db.plans && x in st.db.plans[p].executions
  {
    var rec, row := st.db.plans[p], st.db.plans[p].executions[x];
    && EventKnown(st, e)
    && (|| (row.status == ExecRunning && row.task in rec.tasks
            && IsPlainAfter(st.db, p, LeaseEnd(cfg, rec.tasks[row.task]), e))
        || (row.status == CompensationRequired && IsMatching(st.db, p, x, row.operation, e)))
  }

  /** The outcome of a claim for the due driver of the plan's current execution: take it over. */
  lemma DriverIsTakenOver(cfg: Config, st: Sys, p: PlanId, x: ExecutionId, e: EventId, ids: NewIds, id: EventId)
    requires SysInv(cfg, st) && p in st.db.plans && st.db.plans[p].current.Some?
    requires Latest(st.db.plans[p], st.db.plans[p].current.value) == Some(x) && IsDueDriver(cfg, st, p, x, e)
    ensures var k := st.db.outbox[e].kind;
            Claim(cfg, st.db, p, Some(e), k.execution, k.operation, ids, id, st.now).1 ==
            Some(Recover(SnapshotOf(p, x, st.db.plans[p].executions[x])))
  {
    var rec, k := st.db.plans[p], st.db.outbox[e].kind;
    assert PlanInv(cfg, rec) && EventOk(st.db, e);
    LookTakesOver(cfg, p, rec, Some(e), k.execution, k.operation, ids, st.now, x);
  }

  lemma LookTakesOver(
    cfg: Config, p: PlanId, rec: PlanRec, event: Option<EventId>, wantedExecution: Option<ExecutionId>,
    wantedOperation: Option<OperationId>, ids: NewIds, now: int, x: ExecutionId)
    requires PlanInv(cfg, rec) && rec.current.Some? && rec.current.value in rec.tasks
    requires Latest(rec, rec.current.value) == Some(x)
    requires rec.executions[x].status == CompensationRequired
             || (rec.executions[x].status == ExecRunning && Expired(cfg, rec, rec.current.value, now))
    requires !Mismatch(wantedExecution, x) && !Mismatch(wantedOperation, rec.executions[x].operation)
    ensures var r := ClaimNext(cfg, p, rec, event, wantedExecution, wantedOperation, ids, now);
            r.Committed? && r.out == Recover(SnapshotOf(p, x, rec.executions[x])) && r.rec.turn == rec.turn
  {
    assert RecoverStale(cfg, rec, rec.current.value, now).Found?;
  }

  /**
    The driver of a busy plan moves it on: in every run, a worker that passed the inbox check for
    it, and commits its claim once it is due, goes on to recover exactly the current execution.
   */
  lemma DueDriverRecovers(cfg: Config, actions: seq<Action>, j: JobId, p: PlanId, x: ExecutionId, e: EventId, ids: NewIds, id: EventId)
    requires var st := Run(cfg, INITIAL, actions);
             && p in st.db.plans && st.db.plans[p].current.Some?
             && Latest(st.db.plans[p], st.db.plans[p].current.value) == Some(x) && IsDueDriver(cfg, st, p, x, e)
             && At(st, j) == Claiming(p, Some(e), st.db.outbox[e].kind.execution, st.db.outbox[e].kind.operation)
             && NewEvent(st, id) && ids.execution !in st.db.plans[p].executions
    ensures var st := Run(cfg, INITIAL, actions);
            At(Exec(cfg, st, ClaimFor(j, ids, id)), j) ==
            Recovering(SnapshotOf(p, x, st.db.plans[p].executions[x]), Some(e))
  {
    var st := Run(cfg, INITIAL, actions);
    Reachable(cfg, actions);
    DriverIsTakenOver(cfg, st, p, x, e, ids, id);
    assert Exec(cfg, st, ClaimFor(j, ids, id)) == DoClaim(cfg, st, j, ids, id);
  }

  // ---------- Fenced single execution ----------

  /** The workflow's newest revision is the one that is not superseded. */
  lemma NewestIsUnsuperseded(db: Db, p: PlanId, q: PlanId)
    requires RevisionsOk(db) && p in db.plans && q in db.plans && db.plans[p].workflow == db.plans[q].workflow
    requires db.plans[p].status != Superseded
    ensures db.plans[q].revision <= db.plans[p].revision
    ensures q != p ==> db.plans[q].status == Superseded
  {
    assert ParentOk(db, p) && ParentOk(db, q);
    if db.plans[q].revision > db.plans[p].revision {
      var r := RevisionChain(db, q, db.plans[p].revision);
      assert false;
    }
    if q != p {
      var r := RevisionChain(db, p, db.plans[q].revision);
      assert r == q;
    }
  }

  /** Across all revisions of a workflow at most one execution is active, in the newest revision. */
  lemma SingleActiveExecution(cfg: Config, st: Sys, p: PlanId, x: ExecutionId, q: PlanId, y: ExecutionId)
    requires SysInv(cfg, st) && p in st.db.plans && q in st.db.plans && st.db.plans[p].workflow == st.db.plans[q].workflow
    requires x in st.db.plans[p].executions && Active(st.db.plans[p].executions[x].status)
    ensures st.db.plans[q].revision <= st.db.plans[p].revision
    ensures st.db.plans[p].current == Some(st.db.plans[p].executions[x].task)
    ensures IsLatest(st.db.plans[p], st.db.plans[p].executions[x].task, x)
    ensures y in st.db.plans[q].executions && Active(st.db.plans[q].executions[y].status) ==> p == q && x == y
  {
    assert PlanInv(cfg, st.db.plans[p]) && PlanInv(cfg, st.db.plans[q]);
    ActiveIsCurrent(st.db.plans[p], x);
    NewestIsUnsuperseded(st.db, p, q);
    if y in st.db.plans[q].executions && Active(st.db.plans[q].executions[y].status) {
      ActiveIsCurrent(st.db.plans[q], y);
      ActiveUnique(st.db.plans[p], x, y);
    }
  }

  /** A worker whose execution is not the running one can neither complete it nor fail it. */
  lemma NotRunningChangesNothing(
    cfg: Config, db: Db, s: Snapshot, refs: seq<string>, error: TaskError, id: EventId, now: int)
    requires s.plan in db.plans && s.execution in db.plans[s.plan].executions ==>
               db.plans[s.plan].executions[s.execution].status != ExecRunning
    ensures CompleteTask(db, s, refs, id, now) == (db, None)
    ensures FailWithoutEffects(cfg, db, s, error, id, now) == (db, None)
    ensures Require(db, s, error, id, now) == (db, None)
  {
  }

  lemma NotRequiredChangesNothing(
    cfg: Config, db: Db, s: Snapshot, attempt: nat, event: Option<EventId>, id: EventId, now: int)
    requires attempt >= 1
    requires s.plan in db.plans && s.execution in db.plans[s.plan].executions ==>
               db.plans[s.plan].executions[s.execution].status != CompensationRequired
    ensures Begin(db, s, id, now) == (db, None)
    ensures CompensationFailed(cfg, db, s, attempt, event, id, now) == (db, None)
    ensures CompensationDone(cfg, db, s, event, id, now) == (db, None)
  {
  }

  /** Execution statuses only move forward over runs. */
  lemma StatusesMoveForward(cfg: Config, st: Sys, actions: seq<Action>, p: PlanId, x: ExecutionId)
    requires SysInv(cfg, st) && p in st.db.plans && x in st.db.plans[p].executions
    ensures var later := Run(cfg, st, actions);
            && p in later.db.plans && x in later.db.plans[p].executions
            && ExecutionEvolves(st.db.plans[p].executions[x], later.db.plans[p].executions[x])
  {
    RunKeeps(cfg, st, actions);
    assert PlanEvolves(st.db, Run(cfg, st, actions).db, p);
  }

  /** Once an execution has left its running state, whoever still holds it can never complete or fail it. */
  lemma StaleWorkerIsFenced(
    cfg: Config, st: Sys, actions: seq<Action>, s: Snapshot, refs: seq<string>, error: TaskError, id: EventId, now: int)
    requires SysInv(cfg, st) && s.plan in st.db.plans && s.execution in st.db.plans[s.plan].executions
    requires st.db.plans[s.plan].executions[s.execution].status != ExecRunning
    ensures var db := Run(cfg, st, actions).db;
            && CompleteTask(db, s, refs, id, now) == (db, None)
            && FailWithoutEffects(cfg, db, s, error, id, now) == (db, None)
            && Require(db, s, error, id, now) == (db, None)
  {
    StatusesMoveForward(cfg, st, actions, s.plan, s.execution);
    NotRunningChangesNothing(cfg, Run(cfg, st, actions).db, s, refs, error, id, now);
  }

  /** Once an execution is settled or locked, no compensation of it can ever commit again. */
  lemma StaleCompensationIsFenced(
    cfg: Config, st: Sys, actions: seq<Action>, s: Snapshot, attempt: nat, event: Option<EventId>, id: EventId, now: int)
    requires SysInv(cfg, st) && s.plan in st.db.plans && s.execution in st.db.plans[s.plan].executions && attempt >= 1
    requires st.db.plans[s.plan].executions[s.execution].status !in {ExecRunning, CompensationRequired}
    ensures var db := Run(cfg, st, actions).db;
            && Begin(db, s, id, now) == (db, None)
            && CompensationFailed(cfg, db, s, attempt, event, id, now) == (db, None)
            && CompensationDone(cfg, db, s, event, id, now) == (db, None)
  {
    StatusesMoveForward(cfg, st, actions, s.plan, s.execution);
    NotRequiredChangesNothing(cfg, Run(cfg, st, actions).db, s, attempt, event, id, now);
  }

  /** As soon as another execution of the plan is active, an earlier one is settled: its holder is fenced for good. */
  lemma OlderSnapshotIsSettled(cfg: Config, st: Sys, s: Snapshot, x: ExecutionId)
    requires SysInv(cfg, st) && s.plan in st.db.plans && s.execution in st.db.plans[s.plan].executions
    requires x in st.db.plans[s.plan].executions && x != s.execution && Active(st.db.plans[s.plan].executions[x].status)
    ensures !Active(st.db.plans[s.plan].executions[s.execution].status)
  {
    assert PlanInv(cfg, st.db.plans[s.plan]);
    if Active(st.db.plans[s.plan].executions[s.execution].status) {
      ActiveUnique(st.db.plans[s.plan], x, s.execution);
    }
  }

  // ---------- Progress ----------

  /** A claim on an open plan with nothing current starts a task whose dependencies have all succeeded. */
  lemma ClaimAlwaysProgresses(
    cfg: Config, actions: seq<Action>, p: PlanId, event: Option<EventId>, ids: NewIds, id: EventId, now: int)
    requires var db := Run(cfg, INITIAL, actions).db;
             && p in db.plans && Open(db.plans[p].status) && db.plans[p].current.None?
             && GoodConsume(db, p, event) && !Recorded(db, event)
             && id !in db.outbox && ids.execution !in db.plans[p].executions
    ensures var db := Run(cfg, INITIAL, actions).db;
            var r := Claim(cfg, db, p, event, None, None, ids, id, now);
            && r.1.Some? && r.1.value.Claimed?
            && var t := r.1.value.snapshot.task;
               && t in db.plans[p].tasks && db.plans[p].tasks[t].status in {Pending, RetryWait}
               && forall u :: (t, u) in db.plans[p].deps ==>
                    u in db.plans[p].tasks && db.plans[p].tasks[u].status == Succeeded
  {
    var db := Run(cfg, INITIAL, actions).db;
    Reachable(cfg, actions);
    assert PlanInv(cfg, db.plans[p]);
    var t := ClaimStarts(cfg, p, db.plans[p], event, ids, now);
    ClaimStartResult(cfg, db, p, event, ids, id, now, t);
    RunnableBefore(db.plans[p], t);
  }

  lemma FirstIsUnique(rec: PlanRec, t: TaskId, u: TaskId)
    requires FirstRunnable(rec, t) && FirstRunnable(rec, u)
    ensures t == u
  {
  }

  /**
    A retry need not wait for its delay: the task that a claim starts is the first by sequence
    of the pending and retrying tasks whose dependencies have succeeded, whatever the time.
   */
  lemma ClaimStartsFirst(
    cfg: Config, actions: seq<Action>, p: PlanId, event: Option<EventId>, ids: NewIds, id: EventId, now: int, t: TaskId)
    requires var db := Run(cfg, INITIAL, actions).db;
             && p in db.plans && Open(db.plans[p].status) && db.plans[p].current.None?
             && GoodConsume(db, p, event) && !Recorded(db, event)
             && id !in db.outbox && ids.execution !in db.plans[p].executions
    ensures var db := Run(cfg, INITIAL, actions).db;
            var r := Claim(cfg, db, p, event, None, None, ids, id, now);
            && r.1.Some? && r.1.value.Claimed?
            && (r.1.value.snapshot.task == t <==> FirstRunnable(Requeue(db.plans[p]), t))
  {
    var db := Run(cfg, INITIAL, actions).db;
    Reachable(cfg, actions);
    assert PlanInv(cfg, db.plans[p]);
    var u := ClaimStarts(cfg, p, db.plans[p], event, ids, now);
    ClaimStartResult(cfg, db, p, event, ids, id, now, u);
    if FirstRunnable(Requeue(db.plans[p]), t) {
      FirstIsUnique(Requeue(db.plans[p]), t, u);
    }
  }

  /** A claim on a plan with nothing current has the same outcome at every time. */
  lemma ClaimIgnoresClock(
    cfg: Config, db: Db, p: PlanId, event: Option<EventId>, wantedExecution: Option<ExecutionId>,
    wantedOperation: Option<OperationId>, ids: NewIds, id: EventId, now: int, later: int)
    requires p in db.plans && db.plans[p].current.None?
    ensures Claim(cfg, db, p, event, wantedExecution, wantedOperation, ids, id, now).1 ==
            Claim(cfg, db, p, event, wantedExecution, wantedOperation, ids, id, later).1
  {
  }

  lemma RunnableBefore(rec: PlanRec, t: TaskId)
    requires Runnable(Requeue(rec), t)
    ensures t in rec.tasks && rec.tasks[t].status in {Pending, RetryWait}
    ensures forall u :: (t, u) in rec.deps ==> u in rec.tasks && rec.tasks[u].status == Succeeded
  {
    var ready := Requeue(rec);
    forall u | (t, u) in rec.deps ensures u in rec.tasks && rec.tasks[u].status == Succeeded {
      assert (t, u) in ready.deps;
    }
  }

  /** Tasks succeed in a topological order of the stored edges: what a started task depends on has succeeded for good. */
  lemma TopologicalOrder(cfg: Config, st: Sys, actions: seq<Action>, p: PlanId, t: TaskId, u: TaskId)
    requires SysInv(cfg, st) && p in st.db.plans && (t, u) in st.db.plans[p].deps
    requires t in st.db.plans[p].tasks && st.db.plans[p].tasks[t].attemptCount > 0
    ensures u in st.db.plans[p].tasks && st.db.plans[p].tasks[u].status == Succeeded
    ensures var later := Run(cfg, st, actions);
            p in later.db.plans && u in later.db.plans[p].tasks && later.db.plans[p].tasks[u].status == Succeeded
  {
    assert PlanInv(cfg, st.db.plans[p]);
    RunKeeps(cfg, st, actions);
    assert PlanEvolves(st.db, Run(cfg, st, actions).db, p);
    assert TaskEvolves(st.db.plans[p].tasks[u], Run(cfg, st, actions).db.plans[p].tasks[u]);
  }

  /** The completion of a task always adds the event that comes next: the branch that adds none is dead. */
  lemma CompletionAlwaysEmits(cfg: Config, actions: seq<Action>, s: Snapshot, refs: seq<string>, id: EventId, now: int)
    requires var st := Run(cfg, INITIAL, actions);
             id !in st.db.outbox && CompleteTask(st.db, s, refs, id, now).1.Some?
    ensures var db := Run(cfg, INITIAL, actions).db;
            var b := CompleteTask(db, s, refs, id, now).0;
            && id in b.outbox && b.outbox[id].plan == s.plan
            && (b.outbox[id].kind == PlanWakeup(None, None) || b.outbox[id].kind == AggregationRequested)
            && (b.outbox[id].kind == AggregationRequested <==> AllSucceeded(b.plans[s.plan]))
  {
    var db := Run(cfg, INITIAL, actions).db;
    Reachable(cfg, actions);
    var rec := db.plans[s.plan];
    assert PlanInv(cfg, rec);
    OwnerIsCurrent(rec, s);
    CompleteResult(rec, s, refs, now);
    CompletionKind(rec, s, refs, now);
  }

  lemma CompletionKind(rec: PlanRec, s: Snapshot, refs: seq<string>, now: int)
    requires OwnsRunning(rec, s) && Complete(rec, s, refs, now).emit.Some?
    ensures var r := Complete(rec, s, refs, now);
            && (r.emit.value == EmitWakeup(None, None, now) || r.emit.value == EmitAggregation)
            && (r.emit.value == EmitAggregation <==> AllSucceeded(r.rec))
  {
    var r := Complete(rec, s, refs, now);
    var done := Settle(rec, s.task, s.execution, Succeeded, SuccessRow(rec.executions[s.execution], refs));
    assert AllSucceeded(done) <==> AllSucceeded(r.rec);
    if SomeTaskIn(done, {Pending, RetryWait}) {
      var t :| t in done.tasks && done.tasks[t].status in {Pending, RetryWait};
      assert !AllSucceeded(done);
    }
  }
}
