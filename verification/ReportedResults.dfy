/**
  What executors report, from the completion of an execution to the snapshot that the
  aggregation reads: nothing is lost on the way, and nothing is added.
 */
module ReportedResults {
  import opened Common
  import opened WorkflowRows
  import opened PlanLifecycle
  import opened WorkflowStore
  import opened WorkflowCommit
  import opened RuntimeTransactions
  import opened WorkflowSystem
  import opened SystemRuns
  import opened RuntimeOutcomes
  import opened Aggregation

  predicate HasSucceeded(db: Db, p: PlanId, x: ExecutionId) {
    p in db.plans && x in db.plans[p].executions && db.plans[p].executions[x].status == ExecSucceeded
  }

  /** The action reports the completion of execution x of plan p with these references, and its worker still holds it. */
  predicate Reports(st: Sys, a: Action, p: PlanId, x: ExecutionId, refs: seq<string>) {
    && a.Succeed? && a.refs == refs && At(st, a.job).Executing? && NewEvent(st, a.id)
    && var s := At(st, a.job).snapshot;
       s.plan == p && s.execution == x && HoldsRunning(st.db, s)
  }

  // ---------- Only a report makes an execution succeed ----------

  ghost predicate NoNewSuccess(a: Db, b: Db) {
    forall p, x :: HasSucceeded(b, p, x) ==> HasSucceeded(a, p, x)
  }

  ghost predicate NoneSucceeds(a: PlanRec, b: PlanRec) {
    forall x :: x in b.executions && b.executions[x].status == ExecSucceeded ==>
      x in a.executions && a.executions[x].status == ExecSucceeded
  }

  lemma ClaimNoneSucceeds(
    cfg: Config, p: PlanId, rec: PlanRec, event: Option<EventId>, wantedExecution: Option<ExecutionId>,
    wantedOperation: Option<OperationId>, ids: NewIds, now: int)
    ensures var r := ClaimNext(cfg, p, rec, event, wantedExecution, wantedOperation, ids, now);
            r.Committed? ==> NoneSucceeds(rec, r.rec)
  {
  }

  lemma ClaimNoNew(
    cfg: Config, db: Db, p: PlanId, event: Option<EventId>, wantedExecution: Option<ExecutionId>,
    wantedOperation: Option<OperationId>, ids: NewIds, id: EventId, now: int)
    ensures NoNewSuccess(db, Claim(cfg, db, p, event, wantedExecution, wantedOperation, ids, id, now).0)
  {
    if Known(db, p) {
      ClaimNoneSucceeds(cfg, p, db.plans[p], event, wantedExecution, wantedOperation, ids, now);
    }
  }

  lemma FailureNoNew(cfg: Config, db: Db, s: Snapshot, error: TaskError, id: EventId, now: int)
    ensures NoNewSuccess(db, FailWithoutEffects(cfg, db, s, error, id, now).0)
  {
  }

  lemma RequireNoNew(db: Db, s: Snapshot, error: TaskError, id: EventId, now: int)
    ensures NoNewSuccess(db, Require(db, s, error, id, now).0) && NoNewSuccess(db, Begin(db, s, id, now).0)
  {
  }

  lemma PostponedNoNew(cfg: Config, db: Db, s: Snapshot, n: nat, event: Option<EventId>, id: EventId, now: int)
    requires n >= 1
    ensures NoNewSuccess(db, CompensationFailed(cfg, db, s, n, event, id, now).0)
  {
  }

  lemma UndoneNoNew(cfg: Config, db: Db, s: Snapshot, event: Option<EventId>, id: EventId, now: int)
    ensures NoNewSuccess(db, CompensationDone(cfg, db, s, event, id, now).0)
  {
  }

  lemma ExecutionNoNew(cfg: Config, st: Sys, a: Action)
    requires a.ClaimFor? || a.Fail?
    ensures NoNewSuccess(st.db, ExecRuntime(cfg, st, a).db)
  {
    match a
    case ClaimFor(j, ids, id) =>
      if At(st, j).Claiming? {
        var c := At(st, j);
        ClaimNoNew(cfg, st.db, c.plan, c.wakeup, c.wantedExecution, c.wantedOperation, ids, id, st.now);
      }
    case Fail(j, error, id) =>
      if At(st, j).Executing? {
        FailureNoNew(cfg, st.db, At(st, j).snapshot, error, id, st.now);
        RequireNoNew(st.db, At(st, j).snapshot, error, id, st.now);
      }
  }

  lemma CompensationNoNew(cfg: Config, st: Sys, a: Action)
    requires a.BeginAttempt? || a.AttemptFails? || a.AttemptSucceeds?
    ensures NoNewSuccess(st.db, ExecRuntime(cfg, st, a).db)
  {
    match a
    case BeginAttempt(j) =>
      if At(st, j).Recovering? {
        RequireNoNew(st.db, At(st, j).snapshot, TaskError("", false, false), 0, st.now);
      }
    case AttemptFails(j, id) =>
      if At(st, j).Compensating? && At(st, j).attempt >= 1 {
        PostponedNoNew(cfg, st.db, At(st, j).snapshot, At(st, j).attempt, At(st, j).wakeup, id, st.now);
      }
    case AttemptSucceeds(j, id) =>
      if At(st, j).Compensating? {
        UndoneNoNew(cfg, st.db, At(st, j).snapshot, At(st, j).wakeup, id, st.now);
      }
  }

  lemma PlanningNoNew(st: Sys, a: Action)
    ensures NoNewSuccess(st.db, ExecPlanning(st, a).db)
  {
    PlanningFailures(st, a);
    forall p, x | HasSucceeded(ExecPlanning(st, a).db, p, x) ensures HasSucceeded(st.db, p, x) {
      if p !in st.db.plans {
        NewPlansHaveNoExecution(st, a, p);
      }
    }
  }

  lemma NewPlansHaveNoExecution(st: Sys, a: Action, p: PlanId)
    requires p !in st.db.plans && p in ExecPlanning(st, a).db.plans
    ensures ExecPlanning(st, a).db.plans[p].executions == map[]
  {
  }

  lemma DispatchNoNew(st: Sys, a: Action)
    requires IsDispatchAction(a)
    ensures NoNewSuccess(st.db, ExecDispatch(st, a).db)
  {
  }

  lemma MessagingNoNew(st: Sys, a: Action)
    requires IsMessagingAction(a)
    ensures NoNewSuccess(st.db, ExecMessaging(st, a).db)
  {
  }

  lemma OtherStepsMakeNoSuccess(cfg: Config, st: Sys, a: Action)
    requires !a.Succeed?
    ensures NoNewSuccess(st.db, Exec(cfg, st, a).db)
  {
    if IsRuntimeAction(st, a) {
      if a.ClaimFor? || a.Fail? {
        ExecutionNoNew(cfg, st, a);
      } else if !a.CheckInbox? {
        CompensationNoNew(cfg, st, a);
      }
    } else if IsDispatchAction(a) {
      DispatchNoNew(st, a);
    } else if IsMessagingAction(a) {
      MessagingNoNew(st, a);
    } else {
      PlanningNoNew(st, a);
    }
  }

  /** A report stores the first occurrences of its references, in order. */
  lemma ReportIsStored(cfg: Config, st: Sys, a: Action, p: PlanId, x: ExecutionId, refs: seq<string>)
    requires SysInv(cfg, st) && Reports(st, a, p, x, refs)
    ensures HasSucceeded(Exec(cfg, st, a).db, p, x)
    ensures IsFirstOccurrences(Exec(cfg, st, a).db.plans[p].executions[x].resourceRefs, refs)
  {
    SucceedOutcome(cfg, st, a.job, refs, a.id);
  }

  /** An execution that has just succeeded has been reported. */
  lemma SuccessIsReported(cfg: Config, st: Sys, a: Action, p: PlanId, x: ExecutionId)
    requires SysInv(cfg, st) && !HasSucceeded(st.db, p, x) && HasSucceeded(Exec(cfg, st, a).db, p, x)
    ensures a.Succeed? && Reports(st, a, p, x, a.refs)
  {
    if a.Succeed? {
      if At(st, a.job).Executing? && NewEvent(st, a.id) {
        SucceedOutcome(cfg, st, a.job, a.refs, a.id);
      }
    } else {
      OtherStepsMakeNoSuccess(cfg, st, a);
      assert false;
    }
  }

  // ---------- Over runs ----------

  /** Step k of the run reports execution x with these references. */
  ghost predicate ReportedAt(cfg: Config, actions: seq<Action>, k: nat, p: PlanId, x: ExecutionId, refs: seq<string>)
    requires k < |actions|
  {
    Reports(Run(cfg, INITIAL, actions[..k]), actions[k], p, x, refs)
  }

  /** The row of a succeeded execution never changes. */
  lemma SuccessStays(cfg: Config, a: Sys, actions: seq<Action>, p: PlanId, x: ExecutionId)
    requires SysInv(cfg, a) && HasSucceeded(a.db, p, x)
    ensures var b := Run(cfg, a, actions);
            HasSucceeded(b.db, p, x) && b.db.plans[p].executions[x] == a.db.plans[p].executions[x]
  {
    RunKeeps(cfg, a, actions);
    assert PlanEvolves(a.db, Run(cfg, a, actions).db, p);
    assert ExecutionEvolves(a.db.plans[p].executions[x], Run(cfg, a, actions).db.plans[p].executions[x]);
  }

  /** In every run, what was reported stays: the execution has succeeded, with exactly these references. */
  lemma ReportStays(cfg: Config, actions: seq<Action>, k: nat, p: PlanId, x: ExecutionId, refs: seq<string>)
    requires k < |actions| && ReportedAt(cfg, actions, k, p, x, refs)
    ensures var db := Run(cfg, INITIAL, actions).db;
            HasSucceeded(db, p, x) && IsFirstOccurrences(db.plans[p].executions[x].resourceRefs, refs)
  {
    Reachable(cfg, actions[..k]);
    RunThrough(cfg, actions, k);
    StoredForGood(cfg, Run(cfg, INITIAL, actions[..k]), actions[k], actions[k + 1..], p, x, refs);
  }

  lemma RunThrough(cfg: Config, actions: seq<Action>, k: nat)
    requires k < |actions|
    ensures Run(cfg, INITIAL, actions) == Run(cfg, Exec(cfg, Run(cfg, INITIAL, actions[..k]), actions[k]), actions[k + 1..])
  {
    RunPrefix(cfg, INITIAL, actions, k);
    assert actions == actions[..k + 1] + actions[k + 1..];
    RunAppend(cfg, INITIAL, actions[..k + 1], actions[k + 1..]);
  }

  lemma StoredForGood(
    cfg: Config, st: Sys, a: Action, later: seq<Action>, p: PlanId, x: ExecutionId, refs: seq<string>)
    requires SysInv(cfg, st) && Reports(st, a, p, x, refs)
    ensures var db := Run(cfg, Exec(cfg, st, a), later).db;
            HasSucceeded(db, p, x) && IsFirstOccurrences(db.plans[p].executions[x].resourceRefs, refs)
  {
    ReportIsStored(cfg, st, a, p, x, refs);
    ExecKeeps(cfg, st, a);
    SuccessStays(cfg, Exec(cfg, st, a), later, p, x);
  }

  /** In every run, whatever has succeeded was reported. */
  lemma {:induction false} SuccessWasReported(cfg: Config, actions: seq<Action>, n: nat, p: PlanId, x: ExecutionId)
    returns (k: nat, refs: seq<string>)
    requires n <= |actions| && HasSucceeded(Run(cfg, INITIAL, actions[..n]).db, p, x)
    ensures k < n && ReportedAt(cfg, actions, k, p, x, refs)
    decreases n
  {
    assert Run(cfg, INITIAL, []) == INITIAL && actions[..0] == [];
    assert n > 0;
    var m: nat := n - 1;
    var st := Run(cfg, INITIAL, actions[..m]);
    RunPrefix(cfg, INITIAL, actions, m);
    if HasSucceeded(st.db, p, x) {
      k, refs := SuccessWasReported(cfg, actions, m, p, x);
    } else {
      Reachable(cfg, actions[..m]);
      SuccessIsReported(cfg, st, actions[m], p, x);
      k, refs := m, actions[m].refs;
    }
  }

  // ---------- What the aggregation reads ----------

  /** The reference was reported by an execution of plan p that has succeeded. */
  ghost predicate WasReported(cfg: Config, actions: seq<Action>, p: PlanId, v: string) {
    exists k: nat, x, refs :: k < |actions| && ReportedAt(cfg, actions, k, p, x, refs) && v in refs
  }

  /**
    From end to end, in every run: the references that the aggregation of a completed plan
    reads are exactly those that its executions have reported.
   */
  lemma SnapshotReadsReports(cfg: Config, actions: seq<Action>, p: PlanId, order: seq<ExecutionId>, v: string)
    requires var db := Run(cfg, INITIAL, actions).db;
             && p in db.plans && db.plans[p].status == Completed && forall x :: x in db.plans[p].executions ==> x in order
    ensures FromLatest(Run(cfg, INITIAL, actions).db.plans[p], order, v) <==> WasReported(cfg, actions, p, v)
  {
    var rec := Run(cfg, INITIAL, actions).db.plans[p];
    Reachable(cfg, actions);
    assert actions[..|actions|] == actions;
    if FromLatest(rec, order, v) {
      var k :| IsLastSuccess(rec, order, k) && v in rec.executions[order[k]].resourceRefs;
      var m, refs := SuccessWasReported(cfg, actions, |actions|, p, order[k]);
      ReportStays(cfg, actions, m, p, order[k], refs);
    }
    if WasReported(cfg, actions, p, v) {
      var k: nat, x, refs :| k < |actions| && ReportedAt(cfg, actions, k, p, x, refs) && v in refs;
      ReportStays(cfg, actions, k, p, x, refs);
      assert PlanInv(cfg, rec);
      SuccessIsLatest(cfg, rec, order, x, v);
    }
  }

  /** A completed plan has one successful execution for a task, so it is the last one in any list. */
  lemma SuccessIsLatest(cfg: Config, rec: PlanRec, order: seq<ExecutionId>, x: ExecutionId, v: string)
    requires PlanInv(cfg, rec) && rec.status == Completed && (forall y :: y in rec.executions ==> y in order)
    requires IsSucceeded(rec, x) && v in rec.executions[x].resourceRefs
    ensures FromLatest(rec, order, v)
  {
    var t := rec.executions[x].task;
    var y := OneSuccess(cfg, rec, t);
    assert y == x;
    assert HasSuccess(rec, order, t);
    LastSeenIs(rec, order, t);
    var k :| 0 <= k < |order| && order[k] == LastSeen(rec, order, t).value && IsLastSuccess(rec, order, k)
             && rec.executions[order[k]].task == t;
    assert order[k] == x;
  }
}
