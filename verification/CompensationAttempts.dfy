/**
  The counter of compensation attempts. It is raised before an attempt is made, so an attempt
  whose worker dies is counted and leaves no failure behind: the limit on attempts bounds the
  recorded failures, not the counter.
 */
module CompensationAttempts {
  import opened Common
  import opened WorkflowRows
  import opened PlanLifecycle
  import opened WorkflowStore
  import opened RuntimeTransactions
  import opened WorkflowSystem
  import opened SystemRuns
  import opened EngineWitness

  /** `compensation_attempt_count` of an execution; an execution that does not exist has none. */
  function Attempts(db: Db, p: PlanId, x: ExecutionId): nat {
    if p in db.plans && x in db.plans[p].executions then db.plans[p].executions[x].compensationAttempts else 0
  }

  /** The action begins an attempt for execution x of plan p, and its worker still owns the compensation. */
  predicate Begins(st: Sys, a: Action, p: PlanId, x: ExecutionId) {
    && a.BeginAttempt? && At(st, a.job).Recovering?
    && var s := At(st, a.job).snapshot;
       s.plan == p && s.execution == x && Known(st.db, p) && OwnsCompensation(st.db.plans[p], s)
  }

  ghost predicate SameAttempts(a: Db, b: Db) {
    forall p, x :: Attempts(b, p, x) == Attempts(a, p, x)
  }

  // ---------- What one step does to the counter ----------

  /** The executions of a plan keep their counters, and new ones start at zero. */
  ghost predicate SameCounters(a: PlanRec, b: PlanRec) {
    && a.executions.Keys <= b.executions.Keys
    && forall x :: x in b.executions ==>
         b.executions[x].compensationAttempts == if x in a.executions then a.executions[x].compensationAttempts else 0
  }

  lemma CommitAttempts(
    db: Db, p: PlanId, rec: PlanRec, emit: Option<Emission>, id: EventId, consume: Option<EventId>, now: int)
    requires p in db.plans && rec.turn in db.turns
    requires SameCounters(db.plans[p], rec)
    ensures SameAttempts(db, CommitPlan(db, p, rec, emit, id, consume, now))
  {
  }

  lemma ClaimCounters(
    cfg: Config, p: PlanId, rec: PlanRec, event: Option<EventId>, wantedExecution: Option<ExecutionId>,
    wantedOperation: Option<OperationId>, ids: NewIds, now: int)
    requires ids.execution !in rec.executions
    ensures var r := ClaimNext(cfg, p, rec, event, wantedExecution, wantedOperation, ids, now);
            r.Committed? ==> SameCounters(rec, r.rec)
  {
  }

  lemma ClaimKeepsAttempts(
    cfg: Config, db: Db, p: PlanId, event: Option<EventId>, wantedExecution: Option<ExecutionId>,
    wantedOperation: Option<OperationId>, ids: NewIds, id: EventId, now: int)
    requires p in db.plans ==> ids.execution !in db.plans[p].executions
    ensures SameAttempts(db, Claim(cfg, db, p, event, wantedExecution, wantedOperation, ids, id, now).0)
  {
    if Known(db, p) {
      var r := ClaimNext(cfg, p, db.plans[p], event, wantedExecution, wantedOperation, ids, now);
      if r.Committed? && r.rec.turn in db.turns {
        ClaimCounters(cfg, p, db.plans[p], event, wantedExecution, wantedOperation, ids, now);
        var consume := if r.out.Recover? then None else event;
        CommitAttempts(db, p, r.rec, r.emit, id, consume, now);
      }
    }
  }

  lemma SucceedKeepsAttempts(db: Db, s: Snapshot, refs: seq<string>, id: EventId, now: int)
    ensures SameAttempts(db, CompleteTask(db, s, refs, id, now).0)
  {
  }

  lemma FailKeepsAttempts(cfg: Config, db: Db, s: Snapshot, error: TaskError, id: EventId, now: int)
    ensures SameAttempts(db, FailWithoutEffects(cfg, db, s, error, id, now).0)
  {
  }

  lemma RequireKeepsAttempts(db: Db, s: Snapshot, error: TaskError, id: EventId, now: int)
    ensures SameAttempts(db, Require(db, s, error, id, now).0)
  {
  }

  lemma SettlingKeepsAttempts(
    cfg: Config, db: Db, s: Snapshot, attempt: nat, event: Option<EventId>, id: EventId, now: int)
    ensures attempt >= 1 ==> SameAttempts(db, CompensationFailed(cfg, db, s, attempt, event, id, now).0)
    ensures SameAttempts(db, CompensationDone(cfg, db, s, event, id, now).0)
  {
  }

  lemma BeginCounts(db: Db, s: Snapshot, id: EventId, now: int, p: PlanId, x: ExecutionId)
    ensures Attempts(Begin(db, s, id, now).0, p, x) ==
            Attempts(db, p, x) +
            if s.plan == p && s.execution == x && Known(db, p) && OwnsCompensation(db.plans[p], s) then 1 else 0
  {
  }

  lemma ExecutionCounts(cfg: Config, st: Sys, a: Action, p: PlanId, x: ExecutionId)
    requires a.ClaimFor? || a.Succeed? || a.Fail?
    ensures Attempts(ExecRuntime(cfg, st, a).db, p, x) == Attempts(st.db, p, x)
  {
    match a
    case ClaimFor(j, ids, id) =>
      if At(st, j).Claiming? && NewEvent(st, id)
         && (At(st, j).plan in st.db.plans ==> ids.execution !in st.db.plans[At(st, j).plan].executions) {
        var c := At(st, j);
        ClaimKeepsAttempts(cfg, st.db, c.plan, c.wakeup, c.wantedExecution, c.wantedOperation, ids, id, st.now);
      }
    case Succeed(j, refs, id) =>
      if At(st, j).Executing? {
        SucceedKeepsAttempts(st.db, At(st, j).snapshot, refs, id, st.now);
      }
    case Fail(j, error, id) =>
      if At(st, j).Executing? {
        FailKeepsAttempts(cfg, st.db, At(st, j).snapshot, error, id, st.now);
        RequireKeepsAttempts(st.db, At(st, j).snapshot, error, id, st.now);
      }
  }

  lemma CompensationCounts(cfg: Config, st: Sys, a: Action, p: PlanId, x: ExecutionId)
    requires a.BeginAttempt? || a.AttemptFails? || a.AttemptSucceeds?
    ensures Attempts(ExecRuntime(cfg, st, a).db, p, x) == Attempts(st.db, p, x) + if Begins(st, a, p, x) then 1 else 0
  {
    match a
    case BeginAttempt(j) =>
      if At(st, j).Recovering? {
        BeginCounts(st.db, At(st, j).snapshot, 0, st.now, p, x);
      }
    case AttemptFails(j, id) =>
      if At(st, j).Compensating? {
        SettlingKeepsAttempts(cfg, st.db, At(st, j).snapshot, At(st, j).attempt, At(st, j).wakeup, id, st.now);
      }
    case AttemptSucceeds(j, id) =>
      if At(st, j).Compensating? {
        SettlingKeepsAttempts(cfg, st.db, At(st, j).snapshot, 0, At(st, j).wakeup, id, st.now);
      }
  }

  lemma RuntimeCounts(cfg: Config, st: Sys, a: Action, p: PlanId, x: ExecutionId)
    requires IsRuntimeAction(st, a)
    ensures Attempts(ExecRuntime(cfg, st, a).db, p, x) == Attempts(st.db, p, x) + if Begins(st, a, p, x) then 1 else 0
  {
    if a.ClaimFor? || a.Succeed? || a.Fail? {
      ExecutionCounts(cfg, st, a, p, x);
    } else if !a.CheckInbox? {
      CompensationCounts(cfg, st, a, p, x);
    }
  }

  lemma NewPlansHaveNone(st: Sys, a: Action, p: PlanId, x: ExecutionId)
    requires p !in st.db.plans
    ensures Attempts(ExecPlanning(st, a).db, p, x) == 0
  {
  }

  lemma PlanningCounts(st: Sys, a: Action, p: PlanId, x: ExecutionId)
    ensures Attempts(ExecPlanning(st, a).db, p, x) == Attempts(st.db, p, x)
  {
    PlanningFailures(st, a);
    if p !in st.db.plans {
      NewPlansHaveNone(st, a, p, x);
    }
  }

  lemma DispatchCounts(st: Sys, a: Action, p: PlanId, x: ExecutionId)
    requires IsDispatchAction(a)
    ensures Attempts(ExecDispatch(st, a).db, p, x) == Attempts(st.db, p, x)
  {
  }

  lemma MessagingCounts(st: Sys, a: Action, p: PlanId, x: ExecutionId)
    requires IsMessagingAction(a)
    ensures Attempts(ExecMessaging(st, a).db, p, x) == Attempts(st.db, p, x)
  {
  }

  /** Beginning an attempt adds one to the counter of its execution, and no other step changes any counter. */
  lemma StepCounts(cfg: Config, st: Sys, a: Action, p: PlanId, x: ExecutionId)
    ensures Attempts(Exec(cfg, st, a).db, p, x) == Attempts(st.db, p, x) + if Begins(st, a, p, x) then 1 else 0
  {
    if IsRuntimeAction(st, a) {
      RuntimeCounts(cfg, st, a, p, x);
    } else if IsDispatchAction(a) {
      DispatchCounts(st, a, p, x);
    } else if IsMessagingAction(a) {
      MessagingCounts(st, a, p, x);
    } else {
      PlanningCounts(st, a, p, x);
    }
  }

  // ---------- What a run does to the counter ----------

  /** The attempts begun in a run. */
  ghost function Begun(cfg: Config, st: Sys, actions: seq<Action>, p: PlanId, x: ExecutionId): nat
    decreases |actions|
  {
    if actions == [] then 0
    else (if Begins(st, actions[0], p, x) then 1 else 0) + Begun(cfg, Exec(cfg, st, actions[0]), actions[1..], p, x)
  }

  /** Over every run the counter grows by exactly the attempts begun in it. */
  lemma {:induction false} CounterCountsAttempts(cfg: Config, st: Sys, actions: seq<Action>, p: PlanId, x: ExecutionId)
    ensures Attempts(Run(cfg, st, actions).db, p, x) == Attempts(st.db, p, x) + Begun(cfg, st, actions, p, x)
    decreases |actions|
  {
    if actions != [] {
      StepCounts(cfg, st, actions[0], p, x);
      CounterCountsAttempts(cfg, Exec(cfg, st, actions[0]), actions[1..], p, x);
    }
  }

  /** One step takes the counter past the limit exactly if it begins an attempt when the counter is at the limit. */
  lemma StepPassesLimitIff(cfg: Config, st: Sys, a: Action, p: PlanId, x: ExecutionId)
    ensures Attempts(st.db, p, x) <= cfg.maxCompensation < Attempts(Exec(cfg, st, a).db, p, x) <==>
            Begins(st, a, p, x) && Attempts(st.db, p, x) == cfg.maxCompensation
  {
    StepCounts(cfg, st, a, p, x);
  }

  /** Somewhere in the run an attempt is begun although the counter is at the limit. */
  ghost predicate BegunAtLimit(cfg: Config, st: Sys, actions: seq<Action>, p: PlanId, x: ExecutionId)
    decreases |actions|
  {
    actions != []
    && (|| (Begins(st, actions[0], p, x) && Attempts(st.db, p, x) == cfg.maxCompensation)
        || BegunAtLimit(cfg, Exec(cfg, st, actions[0]), actions[1..], p, x))
  }

  /** Over every run the counter stays within the limit if and only if no attempt is begun at the limit. */
  lemma {:induction false} WithinLimitIff(cfg: Config, st: Sys, actions: seq<Action>, p: PlanId, x: ExecutionId)
    requires Attempts(st.db, p, x) <= cfg.maxCompensation
    ensures Attempts(Run(cfg, st, actions).db, p, x) <= cfg.maxCompensation <==> !BegunAtLimit(cfg, st, actions, p, x)
    decreases |actions|
  {
    if actions != [] {
      var next := Exec(cfg, st, actions[0]);
      StepCounts(cfg, st, actions[0], p, x);
      if Attempts(next.db, p, x) <= cfg.maxCompensation {
        WithinLimitIff(cfg, next, actions[1..], p, x);
      } else {
        CounterCountsAttempts(cfg, next, actions[1..], p, x);
      }
    }
  }

  // ---------- A run without bound ----------

  /** The worker of an attempt dies; another one is called and finds the execution. */
  lemma AttemptIsLost(cfg: Config, st: Sys, n: nat) returns (b: Sys)
    requires IsReachable(cfg, st) && ToCompensate(st.db, n, 3) && st.jobs == map[1 := Job(None, Recovering(HELD, None))]
    ensures IsReachable(cfg, b) && ToCompensate(b.db, n + 1, 3) && b.jobs == map[1 := Job(None, Recovering(HELD, None))]
  {
    var c := AttemptBegins(cfg, st, n, 3);
    Reached(cfg, st, c);
    var d := WorkerIsGone(cfg, c);
    Reached(cfg, c, d);
    var e := RuntimeIsCalled(cfg, d);
    Reached(cfg, d, e);
    b := ExecutionIsFound(cfg, e, n + 1, 3);
    Reached(cfg, e, b);
  }

  lemma {:induction false} AttemptsAreLost(cfg: Config, m: nat) returns (st: Sys)
    requires cfg.process.sideEffect
    ensures IsReachable(cfg, st) && ToCompensate(st.db, m, 3) && st.jobs == map[1 := Job(None, Recovering(HELD, None))]
    decreases m
  {
    if m == 0 {
      var a := Working(cfg);
      st := TaskFails(cfg, a);
      Reached(cfg, a, st);
    } else {
      var a := AttemptsAreLost(cfg, m - 1);
      st := AttemptIsLost(cfg, a, m - 1);
    }
  }

  /**
    The counter has no bound: whatever the limit, for every number there is a run in which that
    many attempts are counted and the execution still waits for compensation.
   */
  lemma CounterHasNoBound(cfg: Config, m: nat) returns (st: Sys)
    requires cfg.process.sideEffect
    ensures IsReachable(cfg, st) && Attempts(st.db, 1, 1) == m
    ensures 1 in st.db.plans && 1 in st.db.plans[1].executions
    ensures st.db.plans[1].executions[1].status == CompensationRequired
  {
    st := AttemptsAreLost(cfg, m);
  }
}
