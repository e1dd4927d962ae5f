/** Every action of the workflow engine keeps the invariant of the system. */
module SystemPreservation {
  import opened Common
  import opened WorkflowRows
  import opened PlanLifecycle
  import opened WorkflowStore
  import opened WorkflowCommit
  import opened RuntimeTransactions
  import opened WorkflowSystem

  // ---------- Frames ----------

  /** Nothing in the system goes backwards. */
  ghost predicate SysEvolves(a: Sys, b: Sys) {
    && DbEvolves(a.db, b.db)
    && (forall n :: n in a.stream ==> n in b.stream && b.stream[n] == a.stream[n])
    && a.acked <= b.acked && a.now <= b.now
  }

  lemma EventStays(a: Sys, b: Sys, e: EventId)
    requires SysEvolves(a, b) && EventKnown(a, e)
    ensures EventKnown(b, e) && b.db.outbox[e].kind == a.db.outbox[e].kind && b.db.outbox[e].plan == a.db.outbox[e].plan
  {
  }

  lemma DoneStays(a: Sys, b: Sys, e: EventId)
    requires SysEvolves(a, b) && Done(a, e)
    ensures Done(b, e)
  {
  }

  lemma InStreamStays(a: Sys, b: Sys, e: EventId)
    requires SysEvolves(a, b) && InStream(a, e)
    ensures InStream(b, e)
  {
    var n :| n in a.stream && a.stream[n] == e;
    assert n in b.stream && b.stream[n] == e;
  }

  lemma RowStays(a: Sys, b: Sys, e: EventId)
    requires SysEvolves(a, b) && e in a.db.outbox
    ensures e in b.db.outbox && EventEvolves(a.db.outbox[e], b.db.outbox[e])
  {
  }

  lemma WakeupStays(a: Sys, b: Sys, wakeup: Option<EventId>)
    requires SysEvolves(a, b) && wakeup.Some? && wakeup.value in a.db.outbox
    ensures wakeup.value in b.db.outbox && EventEvolves(a.db.outbox[wakeup.value], b.db.outbox[wakeup.value])
  {
    RowStays(a, b, wakeup.value);
  }

  lemma StepStays(a: Sys, b: Sys, step: Step)
    requires SysEvolves(a, b) && StepOk(a, step)
    requires step.Compensating? ==> AttemptPending(b.db, step.snapshot, step.attempt)
    ensures StepOk(b, step)
  {
    match step {
      case Waking(e) => EventStays(a, b, e);
      case Replanning(e) => EventStays(a, b, e);
      case CheckingAggregation(e) => EventStays(a, b, e);
      case Aggregating(e) => EventStays(a, b, e);
      case Resolving(e) => EventStays(a, b, e);
      case Recording(e) => EventStays(a, b, e);
      case Publishing(e) => EventStays(a, b, e);
      case Marking(e, sent) =>
        EventStays(a, b, e);
        if sent {
          InStreamStays(a, b, e);
        }
      case Claiming(p, wakeup, x, o) =>
        if wakeup.Some? {
          WakeupStays(a, b, wakeup);
        }
      case Recovering(s, wakeup) =>
        if wakeup.Some? {
          WakeupStays(a, b, wakeup);
        }
      case Compensating(s, wakeup, n) =>
        if wakeup.Some? {
          WakeupStays(a, b, wakeup);
        }
      case _ =>
    }
  }

  lemma EntryStays(a: Sys, b: Sys, n: EntryId, step: Step)
    requires SysEvolves(a, b) && EntryOk(a, n, step)
    ensures EntryOk(b, n, step)
  {
    if Done(a, a.stream[n]) {
      DoneStays(a, b, a.stream[n]);
    }
  }

  lemma JobStays(a: Sys, b: Sys, job: Job)
    requires SysEvolves(a, b) && JobOk(a, job)
    requires job.step.Compensating? ==> AttemptPending(b.db, job.step.snapshot, job.step.attempt)
    ensures JobOk(b, job)
  {
    StepStays(a, b, job.step);
    if job.entry.Some? {
      EntryStays(a, b, job.entry.value, job.step);
    }
  }

  /** Pending attempts other than the one held in step `but` are still pending. */
  ghost predicate AttemptsStay(a: Db, b: Db, but: Step) {
    forall step: Step {:trigger AttemptPending(b, step.snapshot, step.attempt)} ::
      step.Compensating? && AttemptPending(a, step.snapshot, step.attempt) && !SameAttempt(step, but) ==>
        AttemptPending(b, step.snapshot, step.attempt)
  }

  /** Job j has moved to a new step or is gone; the other jobs are as before. */
  ghost predicate OnlyJob(a: Sys, b: Sys, j: JobId) {
    && b.jobs.Keys <= a.jobs.Keys + {j}
    && forall i :: i in b.jobs && i != j ==> b.jobs[i] == a.jobs[i]
  }

  lemma JobsStay(a: Sys, b: Sys, j: JobId)
    requires SysEvolves(a, b) && JobsOk(a) && OnlyJob(a, b, j)
    requires j in b.jobs ==> JobOk(b, b.jobs[j])
    requires AttemptsStay(a.db, b.db, At(a, j))
    requires forall i {:trigger b.jobs[i]} :: j in b.jobs && i in b.jobs && i != j ==>
               !SameAttempt(b.jobs[i].step, b.jobs[j].step) && !SameAttempt(b.jobs[j].step, b.jobs[i].step)
    ensures JobsOk(b)
  {
    forall i | i in b.jobs ensures JobOk(b, b.jobs[i]) {
      if i != j {
        assert JobOk(a, a.jobs[i]);
        assert j in a.jobs ==> !SameAttempt(a.jobs[i].step, a.jobs[j].step);
        JobStays(a, b, a.jobs[i]);
      }
    }
    forall i, k | i in b.jobs && k in b.jobs && i != k ensures !SameAttempt(b.jobs[i].step, b.jobs[k].step) {
      if i != j && k != j {
        assert !SameAttempt(a.jobs[i].step, a.jobs[k].step);
      }
    }
  }

  /** The stream after a business transaction: its events are the same, and nothing new is published. */
  lemma StreamStays(a: Sys, b: Sys)
    requires StreamOk(a) && SysEvolves(a, b) && OutboxKept(a.db, b.db) && b.stream == a.stream && b.acked == a.acked
    ensures StreamOk(b)
  {
    forall n | n in b.acked ensures n in b.stream && Done(b, b.stream[n]) {
      DoneStays(a, b, a.stream[n]);
    }
    forall e | e in b.db.outbox && b.db.outbox[e].status == Published ensures InStream(b, e) {
      assert e in a.db.outbox;
      InStreamStays(a, b, e);
    }
  }

  /** A transaction of job j, with its consequences for the other jobs. */
  lemma TransactionKeeps(cfg: Config, a: Sys, b: Sys, j: JobId)
    requires SysInv(cfg, a) && Preserved(cfg, a.db, b.db) && b.stream == a.stream && b.acked == a.acked && b.now == a.now
    requires OnlyJob(a, b, j) && AttemptsStay(a.db, b.db, At(a, j))
    requires j in b.jobs ==> JobOk(b, b.jobs[j])
    requires j in b.jobs && b.jobs[j].step.Compensating? ==> NewAttempt(a, b, j)
    ensures SysInv(cfg, b) && SysEvolves(a, b)
  {
    StreamStays(a, b);
    forall i | j in b.jobs && i in b.jobs && i != j
      ensures !SameAttempt(b.jobs[i].step, b.jobs[j].step) && !SameAttempt(b.jobs[j].step, b.jobs[i].step)
    {
      assert JobOk(a, a.jobs[i]);
      if b.jobs[j].step.Compensating? {
        assert !SameAttempt(a.jobs[i].step, b.jobs[j].step);
      }
    }
    JobsStay(a, b, j);
  }

  /** The attempt of job j is later than every attempt counted before. */
  ghost predicate NewAttempt(a: Sys, b: Sys, j: JobId)
    requires j in b.jobs && b.jobs[j].step.Compensating?
  {
    var s := b.jobs[j].step.snapshot;
    s.plan in a.db.plans && s.execution in a.db.plans[s.plan].executions ==>
      b.jobs[j].step.attempt > a.db.plans[s.plan].executions[s.execution].compensationAttempts
  }

  // ---------- Attempts are left alone by everything but their own failure ----------

  ghost predicate FailuresKept(a: PlanRec, b: PlanRec) {
    forall x :: x in a.executions ==> x in b.executions && b.executions[x].failures == a.executions[x].failures
  }

  lemma AttemptsStaySame(a: Db, b: Db, but: Step)
    requires DbEvolves(a, b)
    requires forall p :: p in a.plans ==> p in b.plans && FailuresKept(a.plans[p], b.plans[p])
    ensures AttemptsStay(a, b, but)
  {
    forall step: Step | step.Compensating? && AttemptPending(a, step.snapshot, step.attempt)
      ensures AttemptPending(b, step.snapshot, step.attempt)
    {
      var s := step.snapshot;
      assert PlanEvolves(a, b, s.plan);
      assert ExecutionEvolves(a.plans[s.plan].executions[s.execution], b.plans[s.plan].executions[s.execution]);
    }
  }

  lemma FinishAttempts<T>(a: Db, p: PlanId, r: Tx<T>, id: EventId, consume: Option<EventId>, now: int, but: Step)
    requires p in a.plans && (r.Committed? ==> FailuresKept(a.plans[p], r.rec))
    requires DbEvolves(a, Finish(a, p, r, id, consume, now).0)
    ensures AttemptsStay(a, Finish(a, p, r, id, consume, now).0, but)
  {
    AttemptsStaySame(a, Finish(a, p, r, id, consume, now).0, but);
  }

  lemma ClaimFailures(
    cfg: Config, p: PlanId, rec: PlanRec, event: Option<EventId>, wantedExecution: Option<ExecutionId>,
    wantedOperation: Option<OperationId>, ids: NewIds, now: int)
    requires ids.execution !in rec.executions
    ensures var r := ClaimNext(cfg, p, rec, event, wantedExecution, wantedOperation, ids, now);
            r.Committed? ==> FailuresKept(rec, r.rec)
  {
  }

  lemma ClaimAttempts(
    cfg: Config, db: Db, p: PlanId, event: Option<EventId>, wantedExecution: Option<ExecutionId>,
    wantedOperation: Option<OperationId>, ids: NewIds, id: EventId, now: int, but: Step)
    requires p in db.plans ==> ids.execution !in db.plans[p].executions
    requires DbEvolves(db, Claim(cfg, db, p, event, wantedExecution, wantedOperation, ids, id, now).0)
    ensures AttemptsStay(db, Claim(cfg, db, p, event, wantedExecution, wantedOperation, ids, id, now).0, but)
  {
    if Known(db, p) {
      ClaimFailures(cfg, p, db.plans[p], event, wantedExecution, wantedOperation, ids, now);
    }
    AttemptsStaySame(db, Claim(cfg, db, p, event, wantedExecution, wantedOperation, ids, id, now).0, but);
  }
}
