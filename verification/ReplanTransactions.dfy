/**
  Replanning and aggregation on the database: the next revision of a workflow, the limit on
  revisions, the completed turn. Each transaction keeps the invariant, and the revisions of a
  workflow form a chain.
 */
module ReplanTransactions {
  import opened Common
  import opened WorkflowRows
  import opened PlanLifecycle
  import opened PlanPreservation
  import opened WorkflowStore
  import opened WorkflowCommit
  import opened PlanningTransactions

  // ---------- The transactions ----------

  datatype Preparation = ReplanRaised | NothingToPlan | Prepared(plan: PlanId, revision: nat)

  ghost predicate IsRevision(db: Db, w: WorkflowId, r: nat, p: PlanId) {
    p in db.plans && db.plans[p].workflow == w && db.plans[p].revision == r
  }

  ghost function PlanAt(db: Db, w: WorkflowId, r: nat): (p: Option<PlanId>)
    ensures p.Some? ==> IsRevision(db, w, r, p.value)
  {
    if p :| IsRevision(db, w, r, p) then Some(p) else None
  }

  predicate Finished(s: TaskStatus) {
    s == Succeeded || s == TaskFailed || s == TaskCancelled || s == TaskSuperseded
  }

  function SetUnfinished(rec: PlanRec, status: TaskStatus): PlanRec {
    rec.(tasks := map t | t in rec.tasks ::
                    if Finished(rec.tasks[t].status) then rec.tasks[t] else rec.tasks[t].(status := status))
  }

  function RecordInbox(db: Db, c: Consumer, e: EventId): Db {
    db.(inbox := db.inbox + {(c, e)})
  }

  function GiveUpRevision(db: Db, p: PlanId): Db
    requires p in db.plans
  {
    Rewrite(db, p, SetUnfinished(db.plans[p], TaskFailed).(status := PlanFailed))
  }

  function NextRevision(db: Db, p: PlanId, q: PlanId): Db
    requires p in db.plans
  {
    var old_ := db.plans[p];
    var done := SetUnfinished(old_, TaskSuperseded).(status := Superseded);
    db.(plans := db.plans[p := done][q := NewPlan(old_.workflow, old_.turn, Some(p), old_.revision + 1)])
  }

  /** The next revision as the event describes it. */
  function RequestedRevision(db: Db, k: EventKind, q: PlanId): Db
    requires k.ReplanRequested? && k.previousPlan in db.plans
  {
    var done := SetUnfinished(db.plans[k.previousPlan], TaskSuperseded).(status := Superseded);
    db.(plans := db.plans[k.previousPlan := done][
          q := NewPlan(k.workflow, k.rootTurn, Some(k.previousPlan), k.nextRevision)])
  }

  function PreparedIfPlanning(db: Db, x: PlanId): Preparation
    requires x in db.plans
  {
    if db.plans[x].status == Planning then Prepared(x, db.plans[x].revision) else NothingToPlan
  }

  /**
   q is the identifier of the new plan; leaseOver says whether the planner's lease on a revision
   has run out; missed says that the inbox was read before another worker recorded the event.
   */
  ghost function Prepare(db: Db, e: EventId, k: EventKind, q: PlanId, leaseOver: bool, missed: bool): (r: (Db, Preparation))
    requires k.ReplanRequested?
  {
    if !missed && (PlanningReplan, e) in db.inbox then
      match PlanAt(db, k.workflow, k.nextRevision)
      case None => (db, NothingToPlan)
      case Some(x) => (db, if leaseOver then PreparedIfPlanning(db, x) else NothingToPlan)
    else if k.previousPlan !in db.plans || k.rootTurn !in db.turns then (db, ReplanRaised)
    else if || db.plans[k.previousPlan].workflow != k.workflow
            || db.turns[k.rootTurn].conversation != k.conversation then (db, ReplanRaised)
    else if k.nextRevision > MAX_PLAN_REVISIONS then
      (RecordInbox(SetTurn(GiveUpRevision(db, k.previousPlan), k.rootTurn, TurnFailed), PlanningReplan, e), NothingToPlan)
    else
      match PlanAt(db, k.workflow, k.nextRevision)
      case Some(x) => (RecordInbox(db, PlanningReplan, e), PreparedIfPlanning(db, x))
      case None => (RecordInbox(RequestedRevision(db, k, q), PlanningReplan, e), Prepared(q, k.nextRevision))
  }

  /** The answered clarification of the parent plan is resolved once its continuation is aggregated. */
  function ResolveClarification(db: Db, p: PlanId): Db {
    if p !in db.plans || db.plans[p].parent.None? || db.plans[p].parent.value !in db.plans then db
    else
      var parent := db.plans[p].parent.value;
      var t := db.plans[parent].turn;
      if t in db.clarifications && db.clarifications[t].plan == parent && db.clarifications[t].status == Answered
      then SetClarification(db, parent, Resolved) else db
  }

  /** The dispatcher's record of an aggregated event, once. */
  function RecordProcessed(db: Db, e: EventId): Db {
    if (RuntimeDispatcher, e) in db.inbox then db else RecordInbox(db, RuntimeDispatcher, e)
  }

  // ---------- Inbox rows of other consumers ----------

  ghost predicate MayRecord(db: Db, c: Consumer, e: EventId) {
    && e in db.outbox && c == ConsumerOf(db.outbox[e].kind) && c != TaskRuntime
    && (c == PlanningReplan ==>
          && db.outbox[e].plan in db.plans
          && db.plans[db.outbox[e].plan].status !in {ReplanPending, RetryPending}
          && !AnswerPending(db, db.outbox[e].plan))
  }

  lemma RecordTouches(db: Db, c: Consumer, e: EventId)
    requires MayRecord(db, c, e)
    ensures TouchesOnly(db, RecordInbox(db, c, e), db.outbox[e].plan)
  {
  }

  lemma RecordTables(db: Db, c: Consumer, e: EventId)
    requires MayRecord(db, c, e) && RevisionsOk(db) && EventsOk(db) && ClaimsOk(db) && ClarificationsOk(db)
    ensures var b := RecordInbox(db, c, e);
            RevisionsOk(b) && EventsOk(b) && ClaimsOk(b) && ClarificationsOk(b)
  {
    var b := RecordInbox(db, c, e);
    assert RevisionsOk(b) by { SideRevisionsSame(db, b); }
    forall f | f in b.outbox ensures EventOk(b, f) {
      assert EventOk(db, f);
    }
    forall q, x, f ensures ClaimedFor(b, q, x, f) <==> ClaimedFor(db, q, x, f) {
    }
    forall t | t in b.clarifications ensures ClarificationOk(b, t) {
      assert ClarificationOk(db, t);
    }
  }

  lemma SideRevisionsSame(a: Db, b: Db)
    requires RevisionsOk(a) && b.plans == a.plans
    ensures RevisionsOk(b)
  {
    forall q | q in b.plans ensures ParentOk(b, q) && (b.plans[q].status == Superseded <==> HasSuccessor(b, q)) {
      assert ParentOk(a, q);
      assert HasSuccessor(b, q) <==> HasSuccessor(a, q);
    }
  }

  lemma RecordExecutionDriven(cfg: Config, db: Db, c: Consumer, e: EventId, p: PlanId, x: ExecutionId)
    requires c != TaskRuntime && p in db.plans && x in db.plans[p].executions && ExecutionDriven(cfg, db, p, x)
    ensures ExecutionDriven(cfg, RecordInbox(db, c, e), p, x)
  {
    var b := RecordInbox(db, c, e);
    var rec, row := db.plans[p], db.plans[p].executions[x];
    if row.status == ExecRunning && row.task in rec.tasks {
      var at := LeaseEnd(cfg, rec.tasks[row.task]);
      var d :| IsPlainAfter(db, p, at, d);
      assert IsPlainAfter(b, p, at, d);
    }
    if row.status == CompensationRequired {
      var d :| IsMatching(db, p, x, row.operation, d);
      assert IsMatching(b, p, x, row.operation, d);
    }
  }

  lemma RecordDriven(cfg: Config, db: Db, c: Consumer, e: EventId)
    requires MayRecord(db, c, e) && db.outbox[e].plan in db.plans && Driven(cfg, db, db.outbox[e].plan)
    ensures Driven(cfg, RecordInbox(db, c, e), db.outbox[e].plan)
  {
    var p := db.outbox[e].plan;
    var b := RecordInbox(db, c, e);
    var rec := db.plans[p];
    if HasPlain(db, p) {
      var d :| IsPlain(db, p, d);
      assert IsPlain(b, p, d);
    }
    forall x | x in rec.executions ensures ExecutionDriven(cfg, b, p, x) {
      RecordExecutionDriven(cfg, db, c, e, p, x);
    }
    if rec.status in {ReplanPending, RetryPending} || AnswerPending(db, p) {
      var d :| IsReplan(db, p, d);
      assert IsReplan(b, p, d);
    }
    if HasAggregation(db, p) {
      var d :| IsAggregation(db, p, d);
      assert IsAggregation(b, p, d);
    }
  }

  lemma OnePlanUnchanged(a: Db, b: Db, p: PlanId)
    requires TouchesOnly(a, b, p) && b.plans == a.plans && a.turns.Keys <= b.turns.Keys
    ensures DbEvolves(a, b)
  {
    if p in a.plans {
      EvolvesRefl(a.plans[p]);
    }
    OnePlanEvolves(a, b, p);
  }

  lemma RecordKeeps(cfg: Config, db: Db, c: Consumer, e: EventId)
    requires DbInv(cfg, db) && MayRecord(db, c, e)
    ensures Preserved(cfg, db, RecordInbox(db, c, e))
  {
    var b := RecordInbox(db, c, e);
    assert EventOk(db, e);
    RecordTables(db, c, e);
    RecordTouches(db, c, e);
    var p := db.outbox[e].plan;
    OnePlanUnchanged(db, b, p);
    assert PlanInv(cfg, db.plans[p]) && Driven(cfg, db, p);
    RecordDriven(cfg, db, c, e);
    OthersStayOk(cfg, db, b, p, p);
    OthersStayDriven(cfg, db, b, p, p);
  }

  // ---------- Given up and superseded plans ----------

  /** No task of a plan that waits for its next revision is running. */
  lemma SetUnfinishedStatus(rec: PlanRec, task: TaskStatus, status: PlanStatus)
    requires CurrentOk(rec) && StatusOk(rec) && Abandoned(rec.status)
    requires (task == TaskFailed && status == PlanFailed) || (task == TaskSuperseded && status == Superseded)
    ensures var b := SetUnfinished(rec, task).(status := status);
            CurrentOk(b) && StatusOk(b)
  {
  }

  lemma SetUnfinishedShape(rec: PlanRec, task: TaskStatus, status: PlanStatus)
    requires AttemptsOk(rec) && SequencesOk(rec) && DepsOk(rec) && OrderOk(rec) && !Open(status)
    ensures var b := SetUnfinished(rec, task).(status := status);
            AttemptsOk(b) && SequencesOk(b) && DepsOk(b) && OrderOk(b)
  {
    var b := SetUnfinished(rec, task).(status := status);
    assert SameShape(rec, b);
    ShapeKeepsAttempts(rec, b);
    ShapeKeepsSequences(rec, b);
  }

  lemma SetUnfinishedRows(cfg: Config, rec: PlanRec, task: TaskStatus, status: PlanStatus)
    requires CurrentOk(rec) && ExecutionsOk(rec) && BoundsOk(cfg, rec) && HistoryOk(cfg, rec) && rec.status != Running
    requires task == TaskFailed || task == TaskSuperseded
    ensures var b := SetUnfinished(rec, task).(status := status);
            ExecutionsOk(b) && BoundsOk(cfg, b) && HistoryOk(cfg, b)
  {
    SetUnfinishedExecutions(rec, task);
    forall t | t in rec.tasks ensures rec.tasks[t].status != TaskRunning && TaskBounded(cfg, rec.tasks[t]) {
    }
  }

  lemma SetUnfinishedExecutions(rec: PlanRec, task: TaskStatus)
    requires CurrentOk(rec) && ExecutionsOk(rec) && rec.status != Running && (task == TaskFailed || task == TaskSuperseded)
    ensures ExecutionsOk(SetUnfinished(rec, task))
  {
    forall t | t in rec.tasks ensures rec.tasks[t].status != TaskRunning {
    }
  }

  lemma SetUnfinishedEvolves(rec: PlanRec, task: TaskStatus, status: PlanStatus)
    requires CurrentOk(rec) && AttemptsOk(rec) && ExecutionsOk(rec) && rec.status != Running && !Unpublished(status)
    ensures Evolves(rec, SetUnfinished(rec, task).(status := status))
  {
    forall x | IsLocked(rec, x) ensures false {
      ActiveIsCurrent(rec, x);
    }
  }

  lemma SetUnfinishedKeeps(cfg: Config, rec: PlanRec, task: TaskStatus, status: PlanStatus)
    requires PlanInv(cfg, rec) && Abandoned(rec.status)
    requires (task == TaskFailed && status == PlanFailed) || (task == TaskSuperseded && status == Superseded)
    ensures var b := SetUnfinished(rec, task).(status := status);
            PlanInv(cfg, b) && Evolves(rec, b)
  {
    SetUnfinishedStatus(rec, task, status);
    SetUnfinishedShape(rec, task, status);
    SetUnfinishedRows(cfg, rec, task, status);
    SetUnfinishedEvolves(rec, task, status);
  }

  lemma NoActive(rec: PlanRec, x: ExecutionId)
    requires CurrentOk(rec) && AttemptsOk(rec) && ExecutionsOk(rec) && rec.status != Running && x in rec.executions
    ensures !Active(rec.executions[x].status)
  {
    if Active(rec.executions[x].status) {
      ActiveIsCurrent(rec, x);
    }
  }

  lemma GoneDriven(cfg: Config, b: Db, p: PlanId)
    requires p in b.plans && PlanInv(cfg, b.plans[p])
    requires b.plans[p].status == Superseded || b.plans[p].status == PlanFailed
    ensures Driven(cfg, b, p)
  {
    forall x | x in b.plans[p].executions ensures ExecutionDriven(cfg, b, p, x) {
      NoActive(b.plans[p], x);
    }
  }

  lemma GiveUpKeeps(cfg: Config, db: Db, p: PlanId)
    requires DbInv(cfg, db) && p in db.plans && Abandoned(db.plans[p].status) && db.plans[p].status != Superseded
    ensures Preserved(cfg, db, GiveUpRevision(db, p))
  {
    var rec := SetUnfinished(db.plans[p], TaskFailed).(status := PlanFailed);
    assert PlanInv(cfg, db.plans[p]);
    SetUnfinishedKeeps(cfg, db.plans[p], TaskFailed, PlanFailed);
    RewriteIsCommit(db, p, rec);
    GoneDriven(cfg, Rewrite(db, p, rec), p);
    CommitKeeps(cfg, db, p, rec, None, 0, None, 0);
  }

  // ---------- The next revision ----------

  /** In a chain, the successor of a plan is the plan with the next revision number, and conversely. */
  lemma SuccessorRevision(db: Db, p: PlanId, q: PlanId)
    requires RevisionsOk(db) && p in db.plans
    requires IsRevision(db, db.plans[p].workflow, db.plans[p].revision + 1, q)
    ensures db.plans[q].parent == Some(p) && db.plans[p].status == Superseded
  {
    assert ParentOk(db, p) && ParentOk(db, q);
    var parent := db.plans[q].parent.value;
    assert parent in db.plans && parent == p;
    assert HasSuccessor(db, p);
  }

  lemma NextRevisionRevisions(db: Db, p: PlanId, q: PlanId)
    requires RevisionsOk(db) && p in db.plans && q !in db.plans && db.plans[p].revision < MAX_PLAN_REVISIONS
    requires PlanAt(db, db.plans[p].workflow, db.plans[p].revision + 1).None?
    ensures RevisionsOk(NextRevision(db, p, q))
  {
    var b := NextRevision(db, p, q);
    assert forall r :: r in db.plans ==> !IsRevision(db, db.plans[p].workflow, db.plans[p].revision + 1, r);
    forall r | r in db.plans ensures db.plans[r].parent != Some(q) {
      assert ParentOk(db, r);
    }
    assert b.plans[q].parent == Some(p);
    forall r | r in b.plans ensures ParentOk(b, r) && (b.plans[r].status == Superseded <==> HasSuccessor(b, r)) {
      if r == q {
        assert ParentOk(db, p);
      } else {
        NextRevisionOld(db, p, q, r);
      }
    }
  }

  lemma NextRevisionOld(db: Db, p: PlanId, q: PlanId, r: PlanId)
    requires RevisionsOk(db) && p in db.plans && q !in db.plans && r in db.plans
    ensures var b := NextRevision(db, p, q);
            ParentOk(b, r) && (b.plans[r].status == Superseded <==> HasSuccessor(b, r))
  {
    var b := NextRevision(db, p, q);
    assert ParentOk(db, r);
    if r == p {
      assert q in b.plans && b.plans[q].parent == Some(r);
    } else {
      forall s | s in b.plans && b.plans[s].parent == Some(r) ensures s in db.plans && db.plans[s].parent == Some(r) {
      }
      if HasSuccessor(db, r) {
        var s :| s in db.plans && db.plans[s].parent == Some(r);
        assert s in b.plans && b.plans[s].parent == Some(r);
      }
    }
  }

  lemma NextRevisionEvents(db: Db, p: PlanId, q: PlanId)
    requires EventsOk(db) && ClaimsOk(db) && ClarificationsOk(db) && p in db.plans && q !in db.plans
    requires Abandoned(db.plans[p].status)
    ensures var b := NextRevision(db, p, q);
            EventsOk(b) && ClaimsOk(b) && ClarificationsOk(b)
  {
    var b := NextRevision(db, p, q);
    forall e | e in b.outbox ensures EventOk(b, e) {
      assert EventOk(db, e);
    }
    forall r, x, e ensures ClaimedFor(b, r, x, e) <==> ClaimedFor(db, r, x, e) {
    }
    forall t | t in b.clarifications ensures ClarificationOk(b, t) {
      assert ClarificationOk(db, t);
    }
  }

  lemma NextRevisionRows(db: Db, p: PlanId, q: PlanId)
    requires p in db.plans && q !in db.plans
    ensures var old_, b := db.plans[p], NextRevision(db, p, q);
            && b.plans[p] == SetUnfinished(old_, TaskSuperseded).(status := Superseded)
            && b.plans[q] == NewPlan(old_.workflow, old_.turn, Some(p), old_.revision + 1)
  {
  }

  lemma NextRevisionPlans(cfg: Config, db: Db, p: PlanId, q: PlanId)
    requires p in db.plans && q !in db.plans && Abandoned(db.plans[p].status) && PlanInv(cfg, db.plans[p])
    ensures PlanInv(cfg, NextRevision(db, p, q).plans[p]) && PlanInv(cfg, NextRevision(db, p, q).plans[q])
    ensures Evolves(db.plans[p], NextRevision(db, p, q).plans[p])
  {
    var old_ := db.plans[p];
    NextRevisionRows(db, p, q);
    NewPlanOk(cfg, old_.workflow, old_.turn, Some(p), old_.revision + 1);
    SetUnfinishedKeeps(cfg, old_, TaskSuperseded, Superseded);
  }

  lemma NextRevisionEvolves(db: Db, p: PlanId, q: PlanId)
    requires p in db.plans && q !in db.plans && Abandoned(db.plans[p].status)
    requires Evolves(db.plans[p], NextRevision(db, p, q).plans[p])
    ensures DbEvolves(db, NextRevision(db, p, q))
  {
    var b := NextRevision(db, p, q);
    assert b.plans[p].status == Superseded;
    assert PlanEvolves(db, b, p);
    OnePlanEvolves(db, b, p);
  }

  lemma NextRevisionUndriven(cfg: Config, db: Db, p: PlanId, q: PlanId)
    requires p in db.plans && q !in db.plans && PlanInv(cfg, NextRevision(db, p, q).plans[p])
    ensures Driven(cfg, NextRevision(db, p, q), p) && Driven(cfg, NextRevision(db, p, q), q)
  {
    GoneDriven(cfg, NextRevision(db, p, q), p);
    NewPlanUndriven(cfg, NextRevision(db, p, q), q);
  }

  lemma NextRevisionTouches(db: Db, p: PlanId, q: PlanId)
    requires p in db.plans && q !in db.plans
    ensures var b := NextRevision(db, p, q);
            && TouchesOnly(db, b, p) && b.turns == db.turns && p in b.plans && q in b.plans
            && b.plans[p].turn == b.plans[q].turn == db.plans[p].turn
            && forall r :: r in b.plans && r != p && r != q ==> r in db.plans && b.plans[r] == db.plans[r]
  {
  }

  lemma NextRevisionKeeps(cfg: Config, db: Db, p: PlanId, q: PlanId)
    requires DbInv(cfg, db) && p in db.plans && q !in db.plans && db.plans[p].revision < MAX_PLAN_REVISIONS
    requires Abandoned(db.plans[p].status)
    requires PlanAt(db, db.plans[p].workflow, db.plans[p].revision + 1).None?
    ensures Preserved(cfg, db, NextRevision(db, p, q))
  {
    assert PlanInv(cfg, db.plans[p]);
    NextRevisionPlans(cfg, db, p, q);
    NextRevisionUndriven(cfg, db, p, q);
    NextRevisionTouches(db, p, q);
    OthersStayOk(cfg, db, NextRevision(db, p, q), p, q);
    OthersStayDriven(cfg, db, NextRevision(db, p, q), p, q);
    NextRevisionRevisions(db, p, q);
    NextRevisionEvents(db, p, q);
    NextRevisionEvolves(db, p, q);
  }

  // ---------- Prepare ----------

  /** The request of a replan event always finds its plan, its turn and their conversation. */
  ghost predicate IsRequest(db: Db, e: EventId, k: EventKind) {
    e in db.outbox && k.ReplanRequested? && db.outbox[e].kind == k
  }

  lemma RequestFinds(db: Db, e: EventId, k: EventKind)
    requires EventsOk(db) && IsRequest(db, e, k)
    ensures k.previousPlan in db.plans && k.rootTurn in db.turns && k.previousPlan == db.outbox[e].plan
    ensures db.plans[k.previousPlan].workflow == k.workflow && db.turns[k.rootTurn].conversation == k.conversation
    ensures k.nextRevision == db.plans[k.previousPlan].revision + 1 && Abandoned(db.plans[k.previousPlan].status)
    ensures k.rootTurn == db.plans[k.previousPlan].turn
  {
    assert EventOk(db, e);
  }

  /** The revision limit is reached: plan, unfinished tasks and turn have failed. */
  lemma PrepareLimit(cfg: Config, db: Db, e: EventId, k: EventKind)
    requires DbInv(cfg, db) && IsRequest(db, e, k) && k.nextRevision > MAX_PLAN_REVISIONS
    requires k.previousPlan in db.plans && k.rootTurn in db.turns
    ensures Preserved(cfg, db, RecordInbox(SetTurn(GiveUpRevision(db, k.previousPlan), k.rootTurn, TurnFailed), PlanningReplan, e))
  {
    var p := k.previousPlan;
    RequestFinds(db, e, k);
    NotSuperseded(db, p);
    GiveUpKeeps(cfg, db, p);
    var b := GiveUpRevision(db, p);
    var c := SetTurn(b, k.rootTurn, TurnFailed);
    TurnStatusKeeps(cfg, b, p, k.rootTurn, TurnFailed);
    PreservedTrans(cfg, db, b, c);
    RecordKeeps(cfg, c, PlanningReplan, e);
    PreservedTrans(cfg, db, c, RecordInbox(c, PlanningReplan, e));
  }

  /** The last revision allowed has no successor. */
  lemma NotSuperseded(db: Db, p: PlanId)
    requires RevisionsOk(db) && p in db.plans && db.plans[p].revision >= MAX_PLAN_REVISIONS
    ensures db.plans[p].status != Superseded
  {
    forall q | q in db.plans ensures db.plans[q].parent != Some(p) {
      assert ParentOk(db, q);
    }
    assert !HasSuccessor(db, p);
  }

  lemma PrepareKeeps(cfg: Config, db: Db, e: EventId, k: EventKind, q: PlanId, leaseOver: bool, missed: bool)
    requires DbInv(cfg, db) && IsRequest(db, e, k) && q !in db.plans
    ensures var r := Prepare(db, e, k, q, leaseOver, missed);
            Preserved(cfg, db, r.0) && !r.1.ReplanRaised?
  {
    PreservedRefl(cfg, db);
    RequestFinds(db, e, k);
    var p := k.previousPlan;
    if !missed && (PlanningReplan, e) in db.inbox {
    } else if k.nextRevision > MAX_PLAN_REVISIONS {
      PrepareLimit(cfg, db, e, k);
    } else if PlanAt(db, k.workflow, k.nextRevision).Some? {
      SuccessorRevision(db, p, PlanAt(db, k.workflow, k.nextRevision).value);
      RecordKeeps(cfg, db, PlanningReplan, e);
    } else {
      NextRevisionKeeps(cfg, db, p, q);
      var b := NextRevision(db, p, q);
      assert RequestedRevision(db, k, q) == b;
      RecordKeeps(cfg, b, PlanningReplan, e);
      PreservedTrans(cfg, db, b, RecordInbox(b, PlanningReplan, e));
    }
  }

  /** However many workers miss the inbox row, a request makes one revision: no later preparation adds a plan. */
  lemma OneRevisionPerRequest(
    cfg: Config, a: Db, b: Db, e: EventId, k: EventKind, q: PlanId, first: bool, r: PlanId, leaseOver: bool, missed: bool)
    requires DbInv(cfg, a) && IsRequest(a, e, k) && (PlanningReplan, e) !in a.inbox && q !in a.plans
    requires DbInv(cfg, b) && DbEvolves(Prepare(a, e, k, q, first, false).0, b)
    ensures Prepare(b, e, k, r, leaseOver, missed).0.plans.Keys == b.plans.Keys
    ensures k.nextRevision <= MAX_PLAN_REVISIONS ==> Prepare(b, e, k, r, leaseOver, missed).0 == b
  {
    RequestFinds(a, e, k);
    var c := Prepare(a, e, k, q, first, false).0;
    if k.nextRevision <= MAX_PLAN_REVISIONS {
      var x := if PlanAt(a, k.workflow, k.nextRevision).Some? then PlanAt(a, k.workflow, k.nextRevision).value else q;
      assert IsRevision(c, k.workflow, k.nextRevision, x);
      assert PlanEvolves(c, b, x);
      assert IsRevision(b, k.workflow, k.nextRevision, x);
      assert b.inbox + {(PlanningReplan, e)} == b.inbox;
    }
  }

  // ---------- Aggregation ----------

  lemma ResolveSide(b: Db, p: PlanId)
    requires ClarificationsOk(b) && p in b.plans
    ensures var c := SetClarification(b, p, Resolved);
            SideChange(b, c, p) && ClarificationsOk(c) && !AnswerPending(c, p)
  {
    var c := SetClarification(b, p, Resolved);
    forall u | u in c.clarifications ensures ClarificationOk(c, u) {
      assert ClarificationOk(b, u);
    }
  }

  lemma ResolveKeeps(cfg: Config, db: Db, p: PlanId)
    requires DbInv(cfg, db)
    ensures Preserved(cfg, db, ResolveClarification(db, p))
  {
    PreservedRefl(cfg, db);
    if p in db.plans && db.plans[p].parent.Some? && db.plans[p].parent.value in db.plans {
      var parent := db.plans[p].parent.value;
      ResolveSide(db, parent);
      SideKeeps(cfg, db, SetClarification(db, parent, Resolved), parent);
    }
  }

  lemma RecordProcessedKeeps(cfg: Config, db: Db, e: EventId)
    requires DbInv(cfg, db) && e in db.outbox && db.outbox[e].kind == AggregationRequested
    ensures Preserved(cfg, db, RecordProcessed(db, e))
  {
    PreservedRefl(cfg, db);
    if (RuntimeDispatcher, e) !in db.inbox {
      RecordKeeps(cfg, db, RuntimeDispatcher, e);
    }
  }

  // ---------- The chain of revisions ----------

  /** Every revision number up to that of an existing plan is taken, each by the parent of the next. */
  lemma {:induction false} RevisionChain(db: Db, p: PlanId, r: nat) returns (q: PlanId)
    requires RevisionsOk(db) && p in db.plans && 1 <= r <= db.plans[p].revision
    ensures IsRevision(db, db.plans[p].workflow, r, q)
    ensures r < db.plans[p].revision ==> db.plans[q].status == Superseded
    decreases db.plans[p].revision - r
  {
    assert ParentOk(db, p);
    if r == db.plans[p].revision {
      q := p;
    } else {
      var parent := db.plans[p].parent.value;
      q := RevisionChain(db, parent, r);
      assert HasSuccessor(db, parent) by { assert p in db.plans && db.plans[p].parent == Some(parent); }
    }
  }

  /** A plan is superseded exactly when its workflow has the next revision, whose parent it is. */
  lemma SupersededExactly(db: Db, p: PlanId)
    requires RevisionsOk(db) && p in db.plans
    ensures db.plans[p].status == Superseded <==> PlanAt(db, db.plans[p].workflow, db.plans[p].revision + 1).Some?
    ensures forall q ::
      (q in db.plans && db.plans[q].workflow == db.plans[p].workflow
       && db.plans[q].revision == db.plans[p].revision + 1) ==> db.plans[q].parent == Some(p)
  {
    forall q | IsRevision(db, db.plans[p].workflow, db.plans[p].revision + 1, q)
      ensures db.plans[q].parent == Some(p) && db.plans[p].status == Superseded
    {
      SuccessorRevision(db, p, q);
    }
    if db.plans[p].status == Superseded {
      assert HasSuccessor(db, p);
      var q :| q in db.plans && db.plans[q].parent == Some(p);
      assert ParentOk(db, q);
      assert IsRevision(db, db.plans[p].workflow, db.plans[p].revision + 1, q);
    }
  }
}
