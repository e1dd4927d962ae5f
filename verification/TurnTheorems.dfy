/**
  Conversation turns in the workflow engine. The planning module makes a turn processing or
  failed without looking at its state, so a completed turn can be reopened; it never is once
  the workflow of the turn has come to an end.
 */
module TurnTheorems {
  import opened WorkflowRows
  import opened WorkflowStore
  import opened WorkflowCommit
  import opened PlanningTransactions
  import opened ReplanTransactions
  import opened WorkflowSystem
  import opened SystemRuns
  import opened WorkflowTheorems

  // ---------- A turn has one workflow ----------

  ghost predicate TurnsOk(db: Db) {
    forall p, q :: p in db.plans && q in db.plans && db.plans[p].turn == db.plans[q].turn ==>
                     db.plans[p].workflow == db.plans[q].workflow
  }

  /** Every plan descends from a first revision for the same turn. */
  lemma {:induction false} FirstRevision(db: Db, p: PlanId) returns (q: PlanId)
    requires RevisionsOk(db) && p in db.plans
    ensures q in db.plans && db.plans[q].turn == db.plans[p].turn && db.plans[q].revision == 1
    decreases db.plans[p].revision
  {
    assert ParentOk(db, p);
    if db.plans[p].parent.None? {
      q := p;
    } else {
      q := FirstRevision(db, db.plans[p].parent.value);
    }
  }

  lemma SamePlansStayOk(a: Db, b: Db)
    requires TurnsOk(a) && DbEvolves(a, b) && b.plans.Keys == a.plans.Keys
    ensures TurnsOk(b)
  {
    forall p, q | p in b.plans && q in b.plans && b.plans[p].turn == b.plans[q].turn
      ensures b.plans[p].workflow == b.plans[q].workflow
    {
      assert p in a.plans && q in a.plans;
      assert PlanEvolves(a, b, p) && PlanEvolves(a, b, q);
    }
  }

  /** The new plan continues a plan of its turn, or is the first one of the turn. */
  lemma NewPlanStaysOk(a: Db, b: Db, q: PlanId)
    requires TurnsOk(a) && DbEvolves(a, b) && q in b.plans && b.plans.Keys == a.plans.Keys + {q}
    requires forall p :: p in a.plans && a.plans[p].turn == b.plans[q].turn ==> a.plans[p].workflow == b.plans[q].workflow
    requires q !in a.plans
    ensures TurnsOk(b)
  {
    forall p, r | p in b.plans && r in b.plans && b.plans[p].turn == b.plans[r].turn
      ensures b.plans[p].workflow == b.plans[r].workflow
    {
      assert PlanEvolves(a, b, p) && PlanEvolves(a, b, r);
    }
  }

  // ---------- Which steps add plans or touch turns ----------

  /** Equal turns, equal plans up to their contents. */
  predicate SameFrame(a: Db, b: Db) {
    b.turns == a.turns && b.plans.Keys == a.plans.Keys
  }

  lemma ClaimFrame(cfg: Config, st: Sys, a: Action)
    requires a.ClaimFor?
    ensures SameFrame(st.db, ExecRuntime(cfg, st, a).db)
  {
  }

  lemma ExecutionFrame(cfg: Config, st: Sys, a: Action)
    requires a.CheckInbox? || a.Succeed? || a.Fail?
    ensures SameFrame(st.db, ExecRuntime(cfg, st, a).db)
  {
  }

  lemma CompensationFrame(cfg: Config, st: Sys, a: Action)
    requires a.BeginAttempt? || a.AttemptFails? || a.AttemptSucceeds?
    ensures SameFrame(st.db, ExecRuntime(cfg, st, a).db)
  {
  }

  lemma RuntimeFrame(cfg: Config, st: Sys, a: Action)
    requires IsRuntimeAction(st, a)
    ensures SameFrame(st.db, ExecRuntime(cfg, st, a).db)
  {
    if a.ClaimFor? {
      ClaimFrame(cfg, st, a);
    } else if a.CheckInbox? || a.Succeed? || a.Fail? {
      ExecutionFrame(cfg, st, a);
    } else {
      CompensationFrame(cfg, st, a);
    }
  }

  lemma MessagingFrame(st: Sys, a: Action)
    requires IsMessagingAction(a)
    ensures SameFrame(st.db, ExecMessaging(st, a).db)
  {
  }

  predicate AddsPlan(a: Action) {
    a.StartWorkflow? || a.PrepareRevision?
  }

  lemma PlanningFrame(st: Sys, a: Action)
    requires !AddsPlan(a)
    ensures ExecPlanning(st, a).db.plans.Keys == st.db.plans.Keys
  {
  }

  lemma DispatchFrame(st: Sys, a: Action)
    requires !AddsPlan(a)
    ensures ExecDispatch(st, a).db.plans.Keys == st.db.plans.Keys
    ensures !a.AggregateTurn? ==> ExecDispatch(st, a).db.turns == st.db.turns
  {
  }

  lemma SamePlanKeys(cfg: Config, st: Sys, a: Action)
    requires !AddsPlan(a)
    ensures Exec(cfg, st, a).db.plans.Keys == st.db.plans.Keys
  {
    if IsRuntimeAction(st, a) {
      RuntimeFrame(cfg, st, a);
    } else if IsDispatchAction(a) {
      DispatchFrame(st, a);
    } else if IsMessagingAction(a) {
      MessagingFrame(st, a);
    } else {
      PlanningFrame(st, a);
    }
  }

  lemma StartedWorkflowOk(cfg: Config, st: Sys, t: TurnId, p: PlanId, w: WorkflowId)
    requires SysInv(cfg, st) && TurnsOk(st.db)
    ensures TurnsOk(Exec(cfg, st, StartWorkflow(t, p, w)).db)
  {
    var b := Exec(cfg, st, StartWorkflow(t, p, w)).db;
    ExecKeeps(cfg, st, StartWorkflow(t, p, w));
    if p !in st.db.plans && !UsesWorkflow(st.db, w) && t in st.db.turns && !HasRevision(st.db, t, 1) {
      forall q | q in st.db.plans ensures st.db.plans[q].turn != t {
        var first := FirstRevision(st.db, q);
      }
      NewPlanStaysOk(st.db, b, p);
    } else {
      SamePlansStayOk(st.db, b);
    }
  }

  /** The plans of a prepared revision: the same, or one more that continues a plan of its workflow and turn. */
  lemma PreparedPlans(cfg: Config, db: Db, e: EventId, q: PlanId, leaseOver: bool, missed: bool)
    requires DbInv(cfg, db) && e in db.outbox && db.outbox[e].kind.ReplanRequested? && q !in db.plans
    ensures var b := Prepare(db, e, db.outbox[e].kind, q, leaseOver, missed).0;
            || b.plans.Keys == db.plans.Keys
            || (b.plans.Keys == db.plans.Keys + {q} && q in b.plans
                && exists p :: p in db.plans && Continues(db.plans[p], b.plans[q]))
  {
    assert EventOk(db, e);
    var k := db.outbox[e].kind;
    var b := Prepare(db, e, k, q, leaseOver, missed).0;
    assert b.plans.Keys != db.plans.Keys ==> b.plans == RequestedRevision(db, k, q).plans;
    assert b.plans.Keys != db.plans.Keys ==> Continues(db.plans[k.previousPlan], b.plans[q]);
  }

  predicate Continues(a: PlanRec, b: PlanRec) {
    b.workflow == a.workflow && b.turn == a.turn
  }

  lemma PreparedRevisionOk(cfg: Config, st: Sys, j: JobId, q: PlanId, leaseOver: bool, missed: bool)
    requires SysInv(cfg, st) && TurnsOk(st.db)
    ensures TurnsOk(Exec(cfg, st, PrepareRevision(j, q, leaseOver, missed)).db)
  {
    if At(st, j).Replanning? && EventKnown(st, At(st, j).event)
       && st.db.outbox[At(st, j).event].kind.ReplanRequested? && q !in st.db.plans {
      PreparedTurnsOk(cfg, st.db, At(st, j).event, q, leaseOver, missed);
    }
  }

  lemma PreparedTurnsOk(cfg: Config, db: Db, e: EventId, q: PlanId, leaseOver: bool, missed: bool)
    requires DbInv(cfg, db) && TurnsOk(db) && e in db.outbox && db.outbox[e].kind.ReplanRequested? && q !in db.plans
    ensures TurnsOk(Prepare(db, e, db.outbox[e].kind, q, leaseOver, missed).0)
  {
    var b := Prepare(db, e, db.outbox[e].kind, q, leaseOver, missed).0;
    PrepareKeeps(cfg, db, e, db.outbox[e].kind, q, leaseOver, missed);
    if b.plans.Keys == db.plans.Keys {
      SamePlansStayOk(db, b);
    } else {
      PreparedPlans(cfg, db, e, q, leaseOver, missed);
      var p :| p in db.plans && Continues(db.plans[p], b.plans[q]);
      NewPlanStaysOk(db, b, q);
    }
  }

  lemma StepKeepsTurnsOk(cfg: Config, st: Sys, a: Action)
    requires SysInv(cfg, st) && TurnsOk(st.db)
    ensures TurnsOk(Exec(cfg, st, a).db)
  {
    if a.StartWorkflow? {
      StartedWorkflowOk(cfg, st, a.turn, a.plan, a.workflow);
    } else if a.PrepareRevision? {
      PreparedRevisionOk(cfg, st, a.job, a.plan, a.leaseOver, a.missed);
    } else {
      ExecKeeps(cfg, st, a);
      SamePlanKeys(cfg, st, a);
      SamePlansStayOk(st.db, Exec(cfg, st, a).db);
    }
  }

  /** In every run, all plans of a turn are revisions of one workflow. */
  lemma {:induction false} RunKeepsTurnsOk(cfg: Config, st: Sys, actions: seq<Action>)
    requires SysInv(cfg, st) && TurnsOk(st.db)
    ensures TurnsOk(Run(cfg, st, actions).db)
    decreases |actions|
  {
    if actions != [] {
      ExecKeeps(cfg, st, actions[0]);
      StepKeepsTurnsOk(cfg, st, actions[0]);
      RunKeepsTurnsOk(cfg, Exec(cfg, st, actions[0]), actions[1..]);
    }
  }

  // ---------- Which steps reopen a turn ----------

  /** A failed planning run or an expired question makes the turn of its plan processing again. */
  predicate RetryReopens(st: Sys, a: Action, t: TurnId) {
    && a.RetryPlanning? && !a.blank && NewEvent(st, a.id)
    && a.plan in st.db.plans && st.db.plans[a.plan].turn == t && st.db.plans[a.plan].status in {Planning, NeedsClarification}
  }

  /** A request for one revision too many fails the turn, if its handling is not a redelivery. */
  predicate LimitReopens(st: Sys, a: Action, t: TurnId) {
    && a.PrepareRevision? && At(st, a.job).Replanning? && EventKnown(st, At(st, a.job).event) && a.plan !in st.db.plans
    && (a.missed || (PlanningReplan, At(st, a.job).event) !in st.db.inbox)
    && var k := st.db.outbox[At(st, a.job).event].kind;
       k.ReplanRequested? && k.rootTurn == t && k.nextRevision > MAX_PLAN_REVISIONS
  }

  lemma RetryMoves(st: Sys, a: Action, t: TurnId)
    requires t in st.db.turns && st.db.turns[t].status == TurnCompleted && (a.RetryPlanning? || a.AnswerUser?)
    ensures t in ExecPlanning(st, a).db.turns
    ensures ExecPlanning(st, a).db.turns[t].status != TurnCompleted <==> RetryReopens(st, a, t)
  {
  }

  /** Publication, questions and the context module leave a completed turn alone. */
  lemma PlanningMoves(st: Sys, a: Action, t: TurnId)
    requires t in st.db.turns && st.db.turns[t].status == TurnCompleted
    ensures t in ExecPlanning(st, a).db.turns
    ensures ExecPlanning(st, a).db.turns[t].status != TurnCompleted <==> RetryReopens(st, a, t)
  {
    if a.RetryPlanning? || a.AnswerUser? {
      RetryMoves(st, a, t);
    } else if a.PublishPlan? || a.AskUser? {
      GuardedMoves(st, a, t);
    }
  }

  lemma GuardedMoves(st: Sys, a: Action, t: TurnId)
    requires t in st.db.turns && st.db.turns[t].status == TurnCompleted && (a.PublishPlan? || a.AskUser?)
    ensures t in ExecPlanning(st, a).db.turns && ExecPlanning(st, a).db.turns[t].status == TurnCompleted
  {
  }

  lemma PrepareMoves(cfg: Config, st: Sys, a: Action, t: TurnId)
    requires SysInv(cfg, st) && a.PrepareRevision? && t in st.db.turns && st.db.turns[t].status == TurnCompleted
    ensures t in ExecDispatch(st, a).db.turns
    ensures ExecDispatch(st, a).db.turns[t].status != TurnCompleted <==> LimitReopens(st, a, t)
  {
    if At(st, a.job).Replanning? && EventKnown(st, At(st, a.job).event) {
      var e := At(st, a.job).event;
      if st.db.outbox[e].kind.ReplanRequested? {
        RequestFinds(st.db, e, st.db.outbox[e].kind);
      }
    }
  }

  lemma DispatchMoves(cfg: Config, st: Sys, a: Action, t: TurnId)
    requires SysInv(cfg, st) && IsDispatchAction(a) && t in st.db.turns && st.db.turns[t].status == TurnCompleted
    ensures t in ExecDispatch(st, a).db.turns
    ensures ExecDispatch(st, a).db.turns[t].status != TurnCompleted <==> LimitReopens(st, a, t)
  {
    if a.PrepareRevision? {
      PrepareMoves(cfg, st, a, t);
    } else if !a.AggregateTurn? {
      DispatchFrame(st, a);
    }
  }

  /**
    On the whole machine, a step reopens a completed turn if and only if it is an accepted
    RetryPlanning of a plan of the turn that is in planning or waits for an answer, or the
    first handling of a request of the turn for a revision beyond the limit.
   */
  lemma ReopenedIff(cfg: Config, st: Sys, a: Action, t: TurnId)
    requires SysInv(cfg, st) && t in st.db.turns && st.db.turns[t].status == TurnCompleted
    ensures t in Exec(cfg, st, a).db.turns
    ensures Exec(cfg, st, a).db.turns[t].status != TurnCompleted <==> RetryReopens(st, a, t) || LimitReopens(st, a, t)
  {
    if IsRuntimeAction(st, a) || (!IsDispatchAction(a) && IsMessagingAction(a)) {
      WorkLeavesTurns(cfg, st, a);
    } else if IsDispatchAction(a) {
      DispatchMoves(cfg, st, a, t);
    } else {
      PlanningStep(cfg, st, a);
      PlanningMoves(st, a, t);
    }
  }

  lemma WorkLeavesTurns(cfg: Config, st: Sys, a: Action)
    requires IsRuntimeAction(st, a) || (!IsDispatchAction(a) && IsMessagingAction(a))
    ensures Exec(cfg, st, a).db.turns == st.db.turns
  {
    if IsRuntimeAction(st, a) {
      RuntimeFrame(cfg, st, a);
    } else {
      MessagingFrame(st, a);
    }
  }

  predicate IsCompleted(db: Db, t: TurnId) {
    t in db.turns && db.turns[t].status == TurnCompleted
  }

  /** Step k of the run reopens the turn. */
  ghost predicate ReopensAt(cfg: Config, st: Sys, actions: seq<Action>, k: nat, t: TurnId)
    requires k < |actions|
  {
    var at := Run(cfg, st, actions[..k]);
    RetryReopens(at, actions[k], t) || LimitReopens(at, actions[k], t)
  }

  /** Over a run a completed turn stays completed up to its first reopening, and that ends it. */
  lemma {:induction false} CompletedUntilReopened(cfg: Config, st: Sys, actions: seq<Action>, n: nat, t: TurnId)
    requires SysInv(cfg, st) && IsCompleted(st.db, t) && n <= |actions|
    requires forall k: nat :: k + 1 < n ==> !ReopensAt(cfg, st, actions, k, t)
    ensures IsCompleted(Run(cfg, st, actions[..n]).db, t) <==> n == 0 || !ReopensAt(cfg, st, actions, n - 1, t)
    decreases n
  {
    if n > 0 {
      CompletedUntilReopened(cfg, st, actions, n - 1, t);
      RunPrefix(cfg, st, actions, n - 1);
      RunKeeps(cfg, st, actions[..n - 1]);
      ReopenedIff(cfg, Run(cfg, st, actions[..n - 1]), actions[n - 1], t);
    }
  }

  // ---------- A turn whose workflow has ended ----------

  /** The workflow of plan p has ended with it, and its turn is completed. */
  predicate ClosedBy(db: Db, p: PlanId) {
    && p in db.plans && db.plans[p].status in {Completed, Unsupported}
    && db.plans[p].turn in db.turns && db.turns[db.plans[p].turn].status == TurnCompleted
  }

  /** All other plans of the turn are superseded. */
  lemma OthersAreSuperseded(cfg: Config, st: Sys, p: PlanId, q: PlanId)
    requires SysInv(cfg, st) && TurnsOk(st.db) && ClosedBy(st.db, p)
    requires q in st.db.plans && st.db.plans[q].turn == st.db.plans[p].turn && q != p
    ensures st.db.plans[q].status == Superseded && st.db.plans[q].revision < st.db.plans[p].revision
  {
    NewestIsUnsuperseded(st.db, p, q);
    assert st.db.plans[q].revision != st.db.plans[p].revision;
  }

  lemma StepKeepsClosed(cfg: Config, st: Sys, a: Action, p: PlanId)
    requires SysInv(cfg, st) && TurnsOk(st.db) && ClosedBy(st.db, p)
    ensures var t := st.db.plans[p].turn;
            t in Exec(cfg, st, a).db.turns && Exec(cfg, st, a).db.turns[t].status == TurnCompleted
  {
    var t := st.db.plans[p].turn;
    ReopenedIff(cfg, st, a, t);
    if RetryReopens(st, a, t) {
      OthersAreSuperseded(cfg, st, p, a.plan);
      assert false;
    }
    if LimitReopens(st, a, t) {
      ClosedIsBelowLimit(cfg, st, At(st, a.job).event, p);
      assert false;
    }
  }

  /** A plan of a closed turn that asked for a revision got it. */
  lemma ClosedIsBelowLimit(cfg: Config, st: Sys, e: EventId, p: PlanId)
    requires SysInv(cfg, st) && TurnsOk(st.db) && ClosedBy(st.db, p)
    requires e in st.db.outbox && st.db.outbox[e].kind.ReplanRequested? && st.db.outbox[e].kind.rootTurn == st.db.plans[p].turn
    ensures st.db.outbox[e].kind.nextRevision <= MAX_PLAN_REVISIONS
  {
    assert EventOk(st.db, e);
    OthersAreSuperseded(cfg, st, p, st.db.outbox[e].kind.previousPlan);
    assert ParentOk(st.db, p);
  }

  lemma {:induction false} RunKeepsClosed(cfg: Config, st: Sys, actions: seq<Action>, p: PlanId)
    requires SysInv(cfg, st) && TurnsOk(st.db) && ClosedBy(st.db, p)
    ensures var later := Run(cfg, st, actions).db;
            ClosedBy(later, p) && later.plans[p].turn == st.db.plans[p].turn
    decreases |actions|
  {
    if actions != [] {
      var next := Exec(cfg, st, actions[0]);
      ExecKeeps(cfg, st, actions[0]);
      StepKeepsTurnsOk(cfg, st, actions[0]);
      StepKeepsClosed(cfg, st, actions[0], p);
      assert PlanEvolves(st.db, next.db, p);
      RunKeepsClosed(cfg, next, actions[1..], p);
    }
  }

  /**
    In every run: once the turn of a completed or unsupported plan is completed, no later step
    of the engine, the planner, the user or the context module reopens it.
   */
  lemma ClosedTurnIsNeverReopened(cfg: Config, before: seq<Action>, after: seq<Action>, p: PlanId)
    requires ClosedBy(Run(cfg, INITIAL, before).db, p)
    ensures var st := Run(cfg, INITIAL, before);
            var later := Run(cfg, st, after).db;
            ClosedBy(later, p) && later.plans[p].turn == st.db.plans[p].turn
  {
    InitialInv(cfg);
    Reachable(cfg, before);
    RunKeepsTurnsOk(cfg, INITIAL, before);
    RunKeepsClosed(cfg, Run(cfg, INITIAL, before), after, p);
  }

  /** The aggregation completes the turn of a completed plan, and of no other. */
  lemma AggregationCloses(cfg: Config, st: Sys, j: JobId)
    requires SysInv(cfg, st) && At(st, j).Aggregating? && At(Exec(cfg, st, AggregateTurn(j)), j).Resolving?
    ensures At(st, j).event in st.db.outbox && ClosedBy(Exec(cfg, st, AggregateTurn(j)).db, st.db.outbox[At(st, j).event].plan)
  {
    assert JobOk(st, st.jobs[j]);
    assert EventOk(st.db, At(st, j).event);
  }

  /** So a turn that the aggregation has completed is never reopened. */
  lemma AggregatedTurnIsNeverReopened(cfg: Config, before: seq<Action>, j: JobId, after: seq<Action>)
    requires var st := Run(cfg, INITIAL, before);
             At(st, j).Aggregating? && At(Exec(cfg, st, AggregateTurn(j)), j).Resolving?
    ensures var st := Run(cfg, INITIAL, before);
            && At(st, j).event in st.db.outbox
            && ClosedBy(Run(cfg, Exec(cfg, st, AggregateTurn(j)), after).db, st.db.outbox[At(st, j).event].plan)
  {
    var st := Run(cfg, INITIAL, before);
    InitialInv(cfg);
    Reachable(cfg, before);
    RunKeepsTurnsOk(cfg, INITIAL, before);
    AggregationCloses(cfg, st, j);
    ExecKeeps(cfg, st, AggregateTurn(j));
    StepKeepsTurnsOk(cfg, st, AggregateTurn(j));
    RunKeepsClosed(cfg, Exec(cfg, st, AggregateTurn(j)), after, st.db.outbox[At(st, j).event].plan);
  }

  lemma CompletionOnRequest(cfg: Config, st: Sys, t: TurnId)
    requires t in st.db.turns && st.db.turns[t].status in {ContextReady, Processing}
    ensures Exec(cfg, st, TurnBecomes(t, TurnCompleted)) == st.(db := SetTurn(st.db, t, TurnCompleted))
  {
  }

  lemma RetryMakesProcessing(cfg: Config, st: Sys, p: PlanId, id: EventId)
    requires p in st.db.plans && st.db.plans[p].status == Planning && id !in st.db.outbox
    requires st.db.plans[p].turn in st.db.turns
    ensures var later := Exec(cfg, st, RetryPlanning(p, false, id)).db;
            st.db.plans[p].turn in later.turns && later.turns[st.db.plans[p].turn].status == Processing
  {
  }

  /**
    What does reopen a turn: the completion endpoint called while its plan is still being
    made, and then a planning run that fails.
   */
  lemma EarlyCompletionIsReopened(cfg: Config, st: Sys, p: PlanId, id: EventId)
    requires p in st.db.plans && st.db.plans[p].status == Planning && id !in st.db.outbox
    requires st.db.plans[p].turn in st.db.turns && st.db.turns[st.db.plans[p].turn].status in {ContextReady, Processing}
    ensures var t := st.db.plans[p].turn;
            var early := Exec(cfg, st, TurnBecomes(t, TurnCompleted));
            var later := Exec(cfg, early, RetryPlanning(p, false, id));
            && t in early.db.turns && early.db.turns[t].status == TurnCompleted
            && t in later.db.turns && later.db.turns[t].status == Processing
  {
    var t := st.db.plans[p].turn;
    CompletionOnRequest(cfg, st, t);
    RetryMakesProcessing(cfg, Exec(cfg, st, TurnBecomes(t, TurnCompleted)), p, id);
  }
}
