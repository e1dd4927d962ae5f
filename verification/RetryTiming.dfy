/**
  A run in which a failed task is started again before its delay is over, in fact at the very
  instant of its failure: with and without a compensation in between.
 */
module RetryTiming {
  import opened Common
  import opened WorkflowRows
  import opened PlanLifecycle
  import opened WorkflowStore
  import opened RuntimeTransactions
  import opened WorkflowSystem
  import opened SystemRuns
  import opened EngineWitness

  /** The task waits for its second attempt; event ids from 4 on are free. */
  predicate Waits(cfg: Config, st: Sys, at: int, e: Execution) {
    && Holds(st, OneTask(Running, None, Started(cfg, at).(status := RetryWait), map[1 := e]), 4)
    && e.task == 1 && e.attempt == 1
    && 3 in st.db.outbox && st.db.outbox[3].availableAt == st.now + cfg.retryDelay
  }

  const FAILED := FIRST.(status := ExecFailed, errorCode := ERROR.code, retryable := true)

  lemma PureFailEffect(cfg: Config, db: Db, now: int)
    requires db.plans == map[1 := OneTask(Running, Some(1), Started(cfg, now), map[1 := FIRST])] && 1 in db.turns
    requires cfg.process.maxAttempts >= 2
    ensures var r := FailWithoutEffects(cfg, db, HELD, ERROR, 3, now);
            && r.1.Some? && r.0.turns == db.turns && r.0.inbox == db.inbox
            && r.0.plans == map[1 := OneTask(Running, None, Started(cfg, now).(status := RetryWait), map[1 := FAILED])]
            && r.0.outbox == db.outbox[3 := r.0.outbox[3]] && r.0.outbox[3].availableAt == now + cfg.retryDelay
  {
    var r := FailTask(cfg, db.plans[1], HELD, ERROR, now);
    assert r.rec == OneTask(Running, None, Started(cfg, now).(status := RetryWait), map[1 := FAILED]);
  }

  const REQUIRED := FIRST.(status := CompensationRequired, errorCode := ERROR.code, retryable := true)

  lemma RequireRows(cfg: Config, db: Db, now: int)
    requires db.plans == map[1 := OneTask(Running, Some(1), Started(cfg, now), map[1 := FIRST])] && 1 in db.turns
    ensures var r := Require(db, HELD, ERROR, 3, now);
            r == (db.(plans := map[1 := OneTask(Running, Some(1), Started(cfg, now), map[1 := REQUIRED])]), Some(()))
  {
    var r := RequireCompensation(db.plans[1], HELD, ERROR);
    assert r.rec == OneTask(Running, Some(1), Started(cfg, now), map[1 := REQUIRED]);
    assert db.plans[1 := r.rec] == map[1 := r.rec];
  }

  const ATTEMPTED := REQUIRED.(compensationAttempts := 1)

  lemma BeginRows(cfg: Config, db: Db, now: int)
    requires db.plans == map[1 := OneTask(Running, Some(1), Started(cfg, now), map[1 := REQUIRED])] && 1 in db.turns
    ensures var r := Begin(db, HELD, 0, now);
            r == (db.(plans := map[1 := OneTask(Running, Some(1), Started(cfg, now), map[1 := ATTEMPTED])]), Some(1))
  {
    var r := BeginCompensation(db.plans[1], HELD);
    assert r.rec == OneTask(Running, Some(1), Started(cfg, now), map[1 := ATTEMPTED]);
    assert db.plans[1 := r.rec] == map[1 := r.rec];
  }

  const UNDONE := ATTEMPTED.(status := Compensated)

  lemma DoneRows(cfg: Config, db: Db, now: int)
    requires db.plans == map[1 := OneTask(Running, Some(1), Started(cfg, now), map[1 := ATTEMPTED])] && 1 in db.turns
    requires cfg.process.maxAttempts >= 2
    ensures var r := CompensationDone(cfg, db, HELD, None, 3, now);
            && r.1.Some? && r.0.turns == db.turns && r.0.inbox == db.inbox
            && r.0.plans == map[1 := OneTask(Running, None, Started(cfg, now).(status := RetryWait), map[1 := UNDONE])]
            && r.0.outbox == db.outbox[3 := r.0.outbox[3]] && r.0.outbox[3].availableAt == now + cfg.retryDelay
  {
    var r := FinishCompensation(cfg, db.plans[1], HELD, now);
    assert UNDONE.errorCode[0] != EXECUTION_LEASE_EXPIRED[0];
    assert r.rec == OneTask(Running, None, Started(cfg, now).(status := RetryWait), map[1 := UNDONE]);
  }

  // ---------- The run up to the failure ----------

  /** Without side effects: the task fails and waits. */
  lemma FailsAtOnce(cfg: Config, a: Sys) returns (st: Sys)
    requires !cfg.process.sideEffect && cfg.process.maxAttempts >= 2
    requires IsReachable(cfg, a) && a.jobs == map[1 := Job(None, Executing(HELD))]
    requires Holds(a, OneTask(Running, Some(1), Started(cfg, a.now), map[1 := FIRST]), 3)
    ensures IsReachable(cfg, st) && Waits(cfg, st, a.now, FAILED) && st.now == a.now && st.jobs.Keys == {1}
  {
    st := Put(a, FailWithoutEffects(cfg, a.db, HELD, ERROR, 3, a.now).0, 1, Handled);
    PureFailEffect(cfg, a.db, a.now);
    PureFailStep(cfg, a);
    Reached(cfg, a, st);
  }

  lemma PureFailStep(cfg: Config, a: Sys)
    requires 3 !in a.db.outbox && 1 in a.jobs && a.jobs[1] == Job(None, Executing(HELD))
    requires !HasSideEffect(cfg, a.db, HELD) && FailWithoutEffects(cfg, a.db, HELD, ERROR, 3, a.now).1.Some?
    ensures Steps(cfg, a, Put(a, FailWithoutEffects(cfg, a.db, HELD, ERROR, 3, a.now).0, 1, Handled))
  {
    RuntimeStep(cfg, a, Fail(1, ERROR, 3));
  }

  lemma NeedsUndoing(cfg: Config, a: Sys) returns (b: Sys)
    requires cfg.process.sideEffect && IsReachable(cfg, a) && a.jobs == map[1 := Job(None, Executing(HELD))]
    requires Holds(a, OneTask(Running, Some(1), Started(cfg, a.now), map[1 := FIRST]), 3)
    ensures IsReachable(cfg, b) && Holds(b, OneTask(Running, Some(1), Started(cfg, a.now), map[1 := REQUIRED]), 3)
    ensures b.now == a.now && b.jobs == map[1 := Job(None, Recovering(HELD, None))]
  {
    b := Put(a, Require(a.db, HELD, ERROR, 3, a.now).0, 1, Recovering(HELD, None));
    RequireRows(cfg, a.db, a.now);
    FailStep(cfg, a);
    Reached(cfg, a, b);
  }

  lemma IsTried(cfg: Config, a: Sys, at: int) returns (b: Sys)
    requires IsReachable(cfg, a) && a.now == at && a.jobs == map[1 := Job(None, Recovering(HELD, None))]
    requires Holds(a, OneTask(Running, Some(1), Started(cfg, at), map[1 := REQUIRED]), 3)
    ensures IsReachable(cfg, b) && Holds(b, OneTask(Running, Some(1), Started(cfg, at), map[1 := ATTEMPTED]), 3)
    ensures b.now == at && b.jobs == map[1 := Job(None, Compensating(HELD, None, 1))]
  {
    b := Put(a, Begin(a.db, HELD, 0, a.now).0, 1, Compensating(HELD, None, 1));
    BeginRows(cfg, a.db, at);
    BeginStep(cfg, a, 0);
    Reached(cfg, a, b);
  }

  lemma IsUndone(cfg: Config, a: Sys, at: int) returns (st: Sys)
    requires IsReachable(cfg, a) && a.now == at && a.jobs == map[1 := Job(None, Compensating(HELD, None, 1))]
    requires Holds(a, OneTask(Running, Some(1), Started(cfg, at), map[1 := ATTEMPTED]), 3) && cfg.process.maxAttempts >= 2
    ensures IsReachable(cfg, st) && Waits(cfg, st, at, UNDONE) && st.now == at && st.jobs.Keys == {1}
  {
    st := Put(a, CompensationDone(cfg, a.db, HELD, None, 3, a.now).0, 1, Handled);
    DoneRows(cfg, a.db, at);
    UndoneStep(cfg, a);
    Reached(cfg, a, st);
  }

  lemma UndoneStep(cfg: Config, a: Sys)
    requires 3 !in a.db.outbox && 1 in a.jobs && a.jobs[1] == Job(None, Compensating(HELD, None, 1))
    requires CompensationDone(cfg, a.db, HELD, None, 3, a.now).1.Some?
    ensures Steps(cfg, a, Put(a, CompensationDone(cfg, a.db, HELD, None, 3, a.now).0, 1, Handled))
  {
    RuntimeStep(cfg, a, AttemptSucceeds(1, 3));
  }

  lemma WaitingIsReachable(cfg: Config) returns (st: Sys, e: Execution)
    requires cfg.process.maxAttempts >= 2
    ensures IsReachable(cfg, st) && Waits(cfg, st, st.now, e) && st.jobs.Keys == {1}
  {
    var a := Working(cfg);
    if cfg.process.sideEffect {
      var b := NeedsUndoing(cfg, a);
      var c := IsTried(cfg, b, a.now);
      st := IsUndone(cfg, c, a.now);
      e := UNDONE;
    } else {
      st := FailsAtOnce(cfg, a);
      e := FAILED;
    }
  }

  // ---------- The second attempt ----------

  const SECOND := NewIds(2, 2, 2)

  lemma WaitingIsNext(rec: PlanRec, task: Task)
    requires rec.tasks == map[1 := task] && task.status == RetryWait && rec.deps == {}
    ensures NextRunnable(Requeue(rec)) == Some(1)
  {
    assert FirstRunnable(Requeue(rec), 1);
  }

  lemma RetryEffectAt(cfg: Config, db: Db, at: int, e: Execution, now: int)
    requires db.plans == map[1 := OneTask(Running, None, Started(cfg, at).(status := RetryWait), map[1 := e])] && 1 in db.turns
    ensures var r := Claim(cfg, db, 1, None, None, None, SECOND, 4, now);
            && r.1 == Some(Claimed(Snapshot(1, 1, 2, 2, 2, 2)))
            && 1 in r.0.plans && 2 in r.0.plans[1].executions
            && r.0.plans[1].executions[2].status == ExecRunning && r.0.plans[1].executions[2].attempt == 2
  {
    WaitingIsNext(db.plans[1], Started(cfg, at).(status := RetryWait));
  }

  ghost predicate Leads(cfg: Config, a: Sys, b: Sys) {
    exists actions :: Run(cfg, a, actions) == b
  }

  lemma LeadsOn(cfg: Config, a: Sys, b: Sys, c: Sys)
    requires Leads(cfg, a, b) && Steps(cfg, b, c)
    ensures Leads(cfg, a, c)
  {
    var actions :| Run(cfg, a, actions) == b;
    var x :| Exec(cfg, b, x) == c;
    RunSnoc(cfg, a, actions, x);
    assert Run(cfg, a, actions + [x]) == c;
  }

  /** In a the task waits for its retry, due retryDelay later; in b its second attempt runs, at the same time. */
  predicate StartedEarly(cfg: Config, a: Sys, b: Sys) {
    && 1 in a.db.plans && 1 in a.db.plans[1].tasks && a.db.plans[1].tasks[1].status == RetryWait
    && 3 in a.db.outbox && a.db.outbox[3].availableAt == a.now + cfg.retryDelay
    && b.now == a.now && 1 in b.db.plans && 2 in b.db.plans[1].executions
    && b.db.plans[1].executions[2].task == 1 && b.db.plans[1].executions[2].attempt == 2
    && b.db.plans[1].executions[2].status == ExecRunning
  }

  /**
    Whenever a task is allowed two attempts, there is a run in which its first attempt fails,
    the wakeup for its retry is due retryDelay later, and the second attempt starts with no time
    passing in between.
   */
  lemma RetryNeedNotWait(cfg: Config) returns (a: Sys, b: Sys)
    requires cfg.process.maxAttempts >= 2
    ensures IsReachable(cfg, a) && Leads(cfg, a, b) && StartedEarly(cfg, a, b)
  {
    var e;
    a, e := WaitingIsReachable(cfg);
    assert Run(cfg, a, []) == a;
    var c := WorkerIsGone(cfg, a);
    LeadsOn(cfg, a, a, c);
    var d := RuntimeIsCalled(cfg, c);
    LeadsOn(cfg, a, c, d);
    b := StartsAgain(cfg, d, a.now, e);
    LeadsOn(cfg, a, d, b);
  }

  lemma StartsAgain(cfg: Config, d: Sys, at: int, e: Execution) returns (b: Sys)
    requires d.jobs == map[1 := Job(None, Claiming(1, None, None, None))]
    requires Holds(d, OneTask(Running, None, Started(cfg, at).(status := RetryWait), map[1 := e]), 4)
    ensures Steps(cfg, d, b) && b.now == d.now && 1 in b.db.plans && 2 in b.db.plans[1].executions
    ensures b.db.plans[1].executions[2].task == 1 && b.db.plans[1].executions[2].attempt == 2
    ensures b.db.plans[1].executions[2].status == ExecRunning
  {
    var out := Claimed(Snapshot(1, 1, 2, 2, 2, 2));
    b := Put(d, Claim(cfg, d.db, 1, None, None, None, SECOND, 4, d.now).0, 1, AfterClaim(out, None));
    RetryEffectAt(cfg, d.db, at, e, d.now);
    ClaimStep(cfg, d, SECOND, 4, out);
  }
}
