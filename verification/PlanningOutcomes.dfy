/**
  What the steps of the planner, the user, the replanner and the aggregation leave behind, in
  terms of the rows before and after them.
 */
module PlanningOutcomes {
  import opened Common
  import opened WorkflowRows
  import opened PlanLifecycle
  import opened PlanPublication
  import opened WorkflowStore
  import opened PlanningTransactions
  import opened ReplanTransactions
  import opened WorkflowSystem
  import opened SystemRuns
  import opened DraftLaws

  // ---------- Beginning and publication ----------

  /** A workflow begins with an empty plan, at most once for a turn. */
  lemma StartOutcome(cfg: Config, st: Sys, t: TurnId, p: PlanId, w: WorkflowId)
    requires p !in st.db.plans && forall q :: q in st.db.plans ==> st.db.plans[q].workflow != w
    ensures Exec(cfg, st, StartWorkflow(t, p, w)) ==
            if t in st.db.turns && (forall q :: q in st.db.plans ==> st.db.plans[q].turn != t || st.db.plans[q].revision != 1)
            then st.(db := st.db.(plans := st.db.plans[p :=
                   PlanRec(w, t, None, 1, Planning, None, map[], {}, map[])]))
            else st
  {
    assert st.(db := st.db) == st;
  }

  /** The drafts of the plan may be published for this turn. */
  ghost predicate ReadyToPublish(db: Db, p: PlanId, turn: TurnId) {
    && p in db.plans && db.plans[p].status == Planning && db.plans[p].turn == turn
    && turn in db.turns && db.turns[turn].status in {ContextReady, Processing}
    && var l := DraftIds(db.plans[p]);
       && 1 <= |l| <= 10 && (forall i :: 0 <= i < |l| ==> db.plans[p].tasks[l[i]].sequence == i + 1)
       && DagVerdict(DraftsOf(db.plans[p], l)).None?
  }

  /** All drafts have become pending tasks with the edges that their references say. */
  predicate IsPublished(rec: PlanRec, after: PlanRec) {
    && after == rec.(status := Ready, tasks := after.tasks, deps := after.deps) && EdgesAreReferences(after)
    && after.tasks.Keys == rec.tasks.Keys
    && forall t :: t in rec.tasks ==> after.tasks[t] == rec.tasks[t].(status := Pending)
  }

  lemma PublishedRows(cfg: Config, rec: PlanRec)
    requires PlanInv(cfg, rec) && rec.status == Planning
    ensures IsPublished(rec, Publish(rec))
  {
    PublishedEdges(cfg, rec);
    forall t | t in rec.tasks ensures rec.tasks[t].status == TaskDraft {
    }
  }

  /** Publication of plan p: its rows, its first wakeup, and its turn. */
  predicate PublishesRows(a: Db, b: Db, p: PlanId, turn: TurnId, id: EventId, now: int)
    requires p in a.plans && turn in a.turns
  {
    && p in b.plans && IsPublished(a.plans[p], b.plans[p])
    && b == a.(plans := a.plans[p := b.plans[p]],
               outbox := a.outbox[id := Event(p, PlanWakeup(None, None), EventPending, 0, now)],
               turns := a.turns[turn := a.turns[turn].(status := Processing)])
  }

  /** A plan is published exactly if its drafts may be; otherwise nothing changes. */
  lemma PublishOutcome(cfg: Config, st: Sys, p: PlanId, turn: TurnId, id: EventId)
    requires SysInv(cfg, st) && NewEvent(st, id)
    ensures var next := Exec(cfg, st, PublishPlan(p, turn, id));
            next == st.(db := next.db) && PublishesIfReady(st.db, next.db, p, turn, id, st.now)
  {
    PublishDb(cfg, st.db, p, turn, id, st.now);
    PublishStep(cfg, st, p, turn, id);
  }

  lemma PublishStep(cfg: Config, st: Sys, p: PlanId, turn: TurnId, id: EventId)
    requires NewEvent(st, id)
    ensures Exec(cfg, st, PublishPlan(p, turn, id)) == st.(db := Finalize(st.db, p, turn, id, st.now).0)
  {
    PlanningStep(cfg, st, PublishPlan(p, turn, id));
  }

  ghost predicate PublishesIfReady(a: Db, b: Db, p: PlanId, turn: TurnId, id: EventId, now: int) {
    if ReadyToPublish(a, p, turn) then PublishesRows(a, b, p, turn, id, now) else b == a
  }

  lemma PublishDb(cfg: Config, db: Db, p: PlanId, turn: TurnId, id: EventId, now: int)
    requires DbInv(cfg, db)
    ensures PublishesIfReady(db, Finalize(db, p, turn, id, now).0, p, turn, id, now)
  {
    PublishErrors(db, p, turn);
    if ReadyToPublish(db, p, turn) {
      assert PlanInv(cfg, db.plans[p]);
      PublishedRows(cfg, db.plans[p]);
      FinalizeRows(db, p, turn, id, now);
    }
  }

  lemma PublishErrors(db: Db, p: PlanId, turn: TurnId)
    ensures PublishError(db, p, turn).None? <==> ReadyToPublish(db, p, turn)
  {
    if p in db.plans {
      var l := DraftIds(db.plans[p]);
      assert |l| == 0 <==> l == [];
      forall i | 0 <= i < |l| ensures l[i] in db.plans[p].tasks {
        assert l[i] in l;
      }
    }
  }

  lemma FinalizeRows(db: Db, p: PlanId, turn: TurnId, id: EventId, now: int)
    requires PublishError(db, p, turn).None? && p in db.plans && db.plans[p].turn == turn && turn in db.turns
    ensures Finalize(db, p, turn, id, now).0 == db.(
              plans := db.plans[p := Publish(db.plans[p])],
              outbox := db.outbox[id := Event(p, PlanWakeup(None, None), EventPending, 0, now)],
              turns := db.turns[turn := db.turns[turn].(status := Processing)])
  {
  }

  // ---------- The other ways in which planning ends ----------

  lemma UnsupportedOutcome(cfg: Config, st: Sys, p: PlanId, blank: bool)
    ensures Exec(cfg, st, DeclareUnsupported(p, blank)) ==
            if !blank && p in st.db.plans && st.db.plans[p].status == Planning
            then st.(db := st.db.(plans := st.db.plans[p := st.db.plans[p].(status := Unsupported)]))
            else st
  {
    assert st.(db := st.db) == st;
  }

  /** The open question about plan p, if there is one, has the given status afterwards. */
  function QuestionBecomes(db: Db, p: PlanId, status: ClarificationStatus): map<TurnId, Clarification>
    requires p in db.plans
  {
    var t := db.plans[p].turn;
    if t in db.clarifications && db.clarifications[t].plan == p
    then db.clarifications[t := db.clarifications[t].(status := status)] else db.clarifications
  }

  /** A failed planning run: another revision is requested, the question expires, and the turn is processed again. */
  lemma RetryOutcome(cfg: Config, st: Sys, p: PlanId, blank: bool, id: EventId)
    requires SysInv(cfg, st) && NewEvent(st, id)
    ensures p in st.db.plans ==> st.db.plans[p].turn in st.db.turns
    ensures Exec(cfg, st, RetryPlanning(p, blank, id)) ==
            if !blank && p in st.db.plans && st.db.plans[p].status in {Planning, NeedsClarification} then
              var rec := st.db.plans[p];
              var turn := st.db.turns[rec.turn];
              st.(db := st.db.(
                plans := st.db.plans[p := rec.(status := RetryPending)],
                outbox := st.db.outbox[id := Event(
                  p, ReplanRequested(rec.workflow, turn.conversation, rec.turn, p, rec.revision + 1, PlannerSystemFailure),
                  EventPending, 0, st.now)],
                clarifications := QuestionBecomes(st.db, p, ClarificationExpired),
                turns := st.db.turns[rec.turn := turn.(status := Processing)]))
            else st
  {
    assert st.(db := st.db) == st;
    RetryStep(cfg, st, p, blank, id);
    assert p in st.db.plans ==> PlanInv(cfg, st.db.plans[p]);
  }

  lemma RetryStep(cfg: Config, st: Sys, p: PlanId, blank: bool, id: EventId)
    requires NewEvent(st, id)
    ensures Exec(cfg, st, RetryPlanning(p, blank, id)) == st.(db := MarkRetryPending(st.db, p, blank, id, st.now).0)
  {
    PlanningStep(cfg, st, RetryPlanning(p, blank, id));
  }

  /** A question to the user: at most one for a turn, in its own conversation. */
  lemma AskOutcome(cfg: Config, st: Sys, p: PlanId, c: ConversationId)
    requires SysInv(cfg, st)
    ensures p in st.db.plans ==> st.db.plans[p].turn in st.db.turns
    ensures Exec(cfg, st, AskUser(p, c)) ==
            if && p in st.db.plans && st.db.plans[p].status == Planning
               && st.db.turns[st.db.plans[p].turn].conversation == c
               && st.db.turns[st.db.plans[p].turn].status in {ContextReady, Processing}
               && st.db.plans[p].turn !in st.db.clarifications
            then
              var t := st.db.plans[p].turn;
              st.(db := st.db.(
                plans := st.db.plans[p := st.db.plans[p].(status := NeedsClarification)],
                clarifications := st.db.clarifications[t := Clarification(c, p, ClarificationOpen)],
                turns := st.db.turns[t := st.db.turns[t].(status := AwaitingAnswer)]))
            else st
  {
    assert st.(db := st.db) == st;
    AskStep(cfg, st, p, c);
    assert p in st.db.plans ==> PlanInv(cfg, st.db.plans[p]);
  }

  lemma AskStep(cfg: Config, st: Sys, p: PlanId, c: ConversationId)
    ensures Exec(cfg, st, AskUser(p, c)) == st.(db := MarkNeedsClarification(st.db, p, c).0)
  {
    PlanningStep(cfg, st, AskUser(p, c));
  }

  /** The turn waits for the answer to the open question about its plan, and has not had one. */
  predicate AwaitsAnswer(db: Db, t: TurnId, c: ConversationId) {
    && t in db.clarifications && t in db.turns && db.clarifications[t].plan in db.plans
    && db.turns[t].conversation == c && db.clarifications[t].conversation == c
    && db.clarifications[t].status == ClarificationOpen && db.turns[t].status == AwaitingAnswer && !db.turns[t].answered
    && db.plans[db.clarifications[t].plan].turn == t && db.plans[db.clarifications[t].plan].status == NeedsClarification
  }

  /** An answer is taken once; it requests the next revision and lets the turn go on. */
  lemma AnswerOutcome(cfg: Config, st: Sys, t: TurnId, c: ConversationId, blank: bool, id: EventId)
    requires SysInv(cfg, st) && NewEvent(st, id)
    ensures Exec(cfg, st, AnswerUser(t, c, blank, id)) ==
            if !blank && AwaitsAnswer(st.db, t, c) then
              var p := st.db.clarifications[t].plan;
              var rec := st.db.plans[p];
              st.(db := st.db.(
                outbox := st.db.outbox[id := Event(
                  p, ReplanRequested(rec.workflow, c, t, p, rec.revision + 1, ClarificationAnswered), EventPending, 0, st.now)],
                clarifications := st.db.clarifications[t := st.db.clarifications[t].(status := Answered)],
                turns := st.db.turns[t := st.db.turns[t].(status := Processing, answered := true)]))
            else st
  {
    assert st.(db := st.db) == st;
    AnswerStep(cfg, st, t, c, blank, id);
    if !blank && AwaitsAnswer(st.db, t, c) {
      var p := st.db.clarifications[t].plan;
      assert st.db.plans[p := st.db.plans[p]] == st.db.plans;
    }
  }

  lemma AnswerStep(cfg: Config, st: Sys, t: TurnId, c: ConversationId, blank: bool, id: EventId)
    requires NewEvent(st, id)
    ensures Exec(cfg, st, AnswerUser(t, c, blank, id)) == st.(db := Answer(st.db, t, c, blank, id, st.now).0)
  {
    PlanningStep(cfg, st, AnswerUser(t, c, blank, id));
  }

  // ---------- The next revision ----------

  /** Tasks that have come to an end keep their status; all others get the new one. */
  predicate Ended(rec: PlanRec, after: PlanRec, status: PlanStatus, task: TaskStatus) {
    && after == rec.(status := status, tasks := after.tasks) && after.tasks.Keys == rec.tasks.Keys
    && forall t :: t in rec.tasks ==>
         after.tasks[t] == if rec.tasks[t].status in {Succeeded, TaskFailed, TaskCancelled, TaskSuperseded}
                           then rec.tasks[t] else rec.tasks[t].(status := task)
  }

  ghost predicate ExistsRevision(db: Db, w: WorkflowId, r: nat) {
    exists q :: q in db.plans && db.plans[q].workflow == w && db.plans[q].revision == r
  }

  ghost predicate PlansRevision(db: Db, w: WorkflowId, r: nat) {
    exists q :: q in db.plans && db.plans[q].workflow == w && db.plans[q].revision == r && db.plans[q].status == Planning
  }

  /** What a replan event that has not been seen in the inbox does to its plan and its workflow. */
  ghost predicate Replans(a: Db, b: Db, k: EventKind, q: PlanId, e: EventId)
    requires k.ReplanRequested? && k.previousPlan in a.plans && k.rootTurn in a.turns
  {
    var p := k.previousPlan;
    && b.outbox == a.outbox && b.clarifications == a.clarifications && b.inbox == a.inbox + {(PlanningReplan, e)}
    && if k.nextRevision > 3 then
         && p in b.plans && Ended(a.plans[p], b.plans[p], PlanFailed, TaskFailed) && b.plans == a.plans[p := b.plans[p]]
         && b.turns == a.turns[k.rootTurn := a.turns[k.rootTurn].(status := TurnFailed)]
       else if ExistsRevision(a, k.workflow, k.nextRevision) then b.plans == a.plans && b.turns == a.turns
       else
         && p in b.plans && Ended(a.plans[p], b.plans[p], Superseded, TaskSuperseded) && b.turns == a.turns
         && b.plans == a.plans[p := b.plans[p]][q :=
              PlanRec(k.workflow, k.rootTurn, Some(p), k.nextRevision, Planning, None, map[], {}, map[])]
  }

  /** Whether the planner is run next. */
  ghost predicate PlannerRuns(db: Db, k: EventKind, seen: bool, leaseOver: bool)
    requires k.ReplanRequested?
  {
    if seen then leaseOver && PlansRevision(db, k.workflow, k.nextRevision)
    else k.nextRevision <= 3 &&
         (ExistsRevision(db, k.workflow, k.nextRevision) ==> PlansRevision(db, k.workflow, k.nextRevision))
  }

  lemma RevisionFound(cfg: Config, db: Db, w: WorkflowId, r: nat)
    requires RevisionsOk(db)
    ensures PlanAt(db, w, r).Some? <==> ExistsRevision(db, w, r)
    ensures PlanAt(db, w, r).Some? ==>
              (db.plans[PlanAt(db, w, r).value].status == Planning <==> PlansRevision(db, w, r))
  {
    if q :| q in db.plans && db.plans[q].workflow == w && db.plans[q].revision == r {
      assert IsRevision(db, w, r, q);
    }
  }

  /**
    A redelivered replan event changes nothing; it runs the planner again only on a revision in
    planning whose lease is over. Otherwise the event makes the next revision, finds it made,
    or gives the workflow up at the limit of three.
   */
  lemma PrepareOutcome(cfg: Config, st: Sys, j: JobId, q: PlanId, leaseOver: bool, missed: bool)
    requires SysInv(cfg, st) && At(st, j).Replanning? && q !in st.db.plans
    requires EventKnown(st, At(st, j).event) && st.db.outbox[At(st, j).event].kind.ReplanRequested?
    ensures var e := At(st, j).event;
            var k := st.db.outbox[e].kind;
            var seen := !missed && (PlanningReplan, e) in st.db.inbox;
            var next := Exec(cfg, st, PrepareRevision(j, q, leaseOver, missed));
            && k.previousPlan in st.db.plans && k.rootTurn in st.db.turns && j in next.jobs
            && At(next, j) == (if PlannerRuns(st.db, k, seen, leaseOver) then RunningPlanner else Handled)
            && if seen then next.db == st.db else Replans(st.db, next.db, k, q, e)
  {
    var e := At(st, j).event;
    var k := st.db.outbox[e].kind;
    RequestFinds(st.db, e, k);
    PreparedRows(cfg, st.db, e, k, q, leaseOver, missed);
    PrepareStep(cfg, st, j, q, leaseOver, missed);
  }

  lemma PrepareStep(cfg: Config, st: Sys, j: JobId, q: PlanId, leaseOver: bool, missed: bool)
    requires At(st, j).Replanning? && q !in st.db.plans && EventKnown(st, At(st, j).event)
    requires st.db.outbox[At(st, j).event].kind.ReplanRequested?
    ensures var e := At(st, j).event;
            var r := Prepare(st.db, e, st.db.outbox[e].kind, q, leaseOver, missed);
            var next := Exec(cfg, st, PrepareRevision(j, q, leaseOver, missed));
            !r.1.ReplanRaised? ==>
              && j in next.jobs && At(next, j) == (if r.1.Prepared? then RunningPlanner else Handled) && next.db == r.0
  {
    var a := PrepareRevision(j, q, leaseOver, missed);
    assert Exec(cfg, st, a) == ExecDispatch(st, a);
  }

  lemma PreparedRows(cfg: Config, db: Db, e: EventId, k: EventKind, q: PlanId, leaseOver: bool, missed: bool)
    requires DbInv(cfg, db) && IsRequest(db, e, k) && q !in db.plans
    ensures k.previousPlan in db.plans && k.rootTurn in db.turns
    ensures var r := Prepare(db, e, k, q, leaseOver, missed);
            var seen := !missed && (PlanningReplan, e) in db.inbox;
            && !r.1.ReplanRaised? && (r.1.Prepared? <==> PlannerRuns(db, k, seen, leaseOver))
            && if seen then r.0 == db else Replans(db, r.0, k, q, e)
  {
    RequestFinds(db, e, k);
    RevisionFound(cfg, db, k.workflow, k.nextRevision);
  }

  // ---------- Aggregation ----------

  /** The aggregation completes the turn of its plan from the states in which that is allowed; otherwise it ends. */
  lemma AggregateOutcome(cfg: Config, st: Sys, j: JobId)
    requires SysInv(cfg, st) && At(st, j).Aggregating?
    ensures var e, next := At(st, j).event, Exec(cfg, st, AggregateTurn(j));
            && e in st.db.outbox && st.db.outbox[e].plan in st.db.plans
            && var t := st.db.plans[st.db.outbox[e].plan].turn;
               && t in st.db.turns
               && if st.db.turns[t].status in {ContextReady, Processing, TurnCompleted} then
                    && At(next, j) == Resolving(e)
                    && next.db == st.db.(turns := st.db.turns[t := st.db.turns[t].(status := TurnCompleted)])
                  else next == Drop(st, j)
  {
    assert JobOk(st, st.jobs[j]);
    assert EventOk(st.db, At(st, j).event);
  }

  /** The question that led to the aggregated plan is resolved, if it has been answered. */
  lemma ResolveOutcome(cfg: Config, st: Sys, j: JobId)
    requires SysInv(cfg, st) && At(st, j).Resolving?
    ensures var e, next := At(st, j).event, Exec(cfg, st, ResolveQuestion(j));
            && e in st.db.outbox && st.db.outbox[e].plan in st.db.plans && At(next, j) == Recording(e)
            && var parent := st.db.plans[st.db.outbox[e].plan].parent;
               && (parent.Some? ==> parent.value in st.db.plans)
               && next.db == st.db.(clarifications :=
                    if parent.Some? && AnswerTaken(st.db, parent.value)
                    then QuestionBecomes(st.db, parent.value, Resolved) else st.db.clarifications)
  {
    assert JobOk(st, st.jobs[j]);
    assert EventOk(st.db, At(st, j).event);
    assert ParentOk(st.db, st.db.outbox[At(st, j).event].plan);
  }

  predicate AnswerTaken(db: Db, p: PlanId)
    requires p in db.plans
  {
    var t := db.plans[p].turn;
    t in db.clarifications && db.clarifications[t].plan == p && db.clarifications[t].status == Answered
  }

  /** The aggregated event is recorded, once. */
  lemma RecordOutcome(cfg: Config, st: Sys, j: JobId)
    requires At(st, j).Recording?
    ensures var next := Exec(cfg, st, RecordAggregation(j));
            && j in next.jobs && At(next, j) == Handled
            && next.db == st.db.(inbox := st.db.inbox + {(RuntimeDispatcher, At(st, j).event)})
  {
    if (RuntimeDispatcher, At(st, j).event) in st.db.inbox {
      assert st.db.inbox + {(RuntimeDispatcher, At(st, j).event)} == st.db.inbox;
    }
  }
}
