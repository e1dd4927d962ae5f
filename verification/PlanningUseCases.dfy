/**
  The planning use cases, the answer to a clarification and the preparation of a revision as
  the program has them: step by step on the rows of one unit of work, which is committed at
  the end. Each is proved to compute the transaction of the same name.
 */
module PlanningUseCases {
  import opened Common
  import opened PlanDag
  import opened WorkflowRows
  import opened PlanPublication
  import opened WorkflowStore
  import opened PlanningTransactions
  import opened ReplanTransactions
  import opened TaskRuntimeService

  // ---------- The verdict of the validator ----------

  /** What the validator guarantees about its result and the graph it has built. */
  ghost predicate Validated(drafts: seq<Draft>, g: Graph, r: Result<seq<(TaskId, TaskId)>, DagError>) {
    && (r == Failure(RefConflict) <==> !RefsUnique(drafts))
    && (forall e :: e in {DependencyInvalid, DependencyMissing} ==>
          (r == Failure(e) <==> RefsUnique(drafts) && exists i: nat :: FirstBadDraft(drafts, i, e)))
    && (WellFormed(drafts) ==> IsGraphOf(g, drafts))
    && (r == Failure(DependencyCycle) <==> WellFormed(drafts) && HasCycle(g))
    && (r == Failure(DepthExceeded) <==> WellFormed(drafts) && !HasCycle(g) && HasLongPath(g))
    && (r.Success? <==> Publishable(drafts, g))
  }

  lemma VerdictOfValidator(drafts: seq<Draft>, g: Graph, r: Result<seq<(TaskId, TaskId)>, DagError>)
    requires Validated(drafts, g, r)
    ensures DagVerdict(drafts) == if r.Failure? then Some(r.error) else None
  {
    if WellFormed(drafts) {
      GraphUnique(drafts, g, GraphOf(drafts));
      NoBadDraft(drafts);
    } else if RefsUnique(drafts) {
      BadDraftVerdict(drafts, r);
    }
  }

  lemma NoBadDraft(drafts: seq<Draft>)
    requires WellFormed(drafts)
    ensures forall e :: !HasBadDraft(drafts, e)
  {
    forall e ensures !HasBadDraft(drafts, e) {
      if HasBadDraft(drafts, e) {
        BadDraftErrors(drafts, e);
      }
    }
  }

  lemma BadDraftVerdict(drafts: seq<Draft>, r: Result<seq<(TaskId, TaskId)>, DagError>)
    requires RefsUnique(drafts) && !WellFormed(drafts)
    requires forall e :: e in {DependencyInvalid, DependencyMissing} ==> (r == Failure(e) <==> HasBadDraft(drafts, e))
    ensures r.Failure? && DagVerdict(drafts) == Some(r.error)
  {
    if forall e :: !HasBadDraft(drafts, e) {
      SomeBadDraft(drafts, |drafts|);
    }
    var e :| HasBadDraft(drafts, e);
    BadDraftErrors(drafts, e);
  }

  // ---------- The use cases ----------

  class Planning {
    var db: Db

    constructor (db: Db)
      ensures this.db == db
    {
      this.db := db;
    }

    method CheckPlanning(p: PlanId, turn: TurnId) returns (e: Option<PlanningError>)
      ensures e == PlanningGuard(db, p, turn)
    {
      if p !in db.plans {
        return Some(PlanNotFound);
      }
      if db.plans[p].status != WorkflowRows.Planning {
        return Some(PlanStateConflict);
      }
      if db.plans[p].turn != turn {
        return Some(PlanTurnConflict);
      }
      return None;
    }

    method Drafts(rec: PlanRec) returns (l: seq<TaskId>)
      ensures l == DraftIds(rec)
    {
      l := ListTasks(rec, set t | t in rec.tasks && rec.tasks[t].status == TaskDraft);
    }

    method CheckDraft(rec: PlanRec, task: NewTask, dependencies: seq<Ref>) returns (e: Option<PlanningError>)
      requires dependencies == Dedup(task.dependsOn)
      ensures e == DraftRejected(rec, task)
    {
      ghost var drafts := set u | u in rec.tasks && rec.tasks[u].status == TaskDraft;
      var l := Drafts(rec);
      ListingSize(rec, drafts);
      assert forall u :: u in l <==> u in drafts;
      if |l| >= MAX_TASKS_PER_PLAN {
        return Some(TaskLimitExceeded);
      }
      if exists u :: u in l && rec.tasks[u].sequence == task.sequence {
        return Some(TaskSequenceConflict);
      }
      if exists u :: u in l && rec.tasks[u].ref == task.ref {
        return Some(TaskRefConflict);
      }
      if task.ref in dependencies {
        return Some(TaskDependencyInvalid);
      }
      return None;
    }

    /** `_CreateDocumentTaskUseCase._execute` */
    method CreateDraft(p: PlanId, turn: TurnId, t: TaskId, task: NewTask) returns (e: Option<PlanningError>)
      modifies this`db
      ensures (db, e) == CreateTask(old(db), p, turn, t, task)
    {
      e := CheckPlanning(p, turn);
      if e.Some? {
        return;
      }
      var plan := db.plans[p];
      var dependencies := StableDedup(task.dependsOn);
      e := CheckDraft(plan, task, dependencies);
      if e.Some? {
        return;
      }
      var row := Task(task.ref, task.capability, dependencies, task.sequence, TaskDraft, 0, 3, 0);
      db := db.(plans := db.plans[p := plan.(tasks := plan.tasks[t := row])]);
    }

    /** Sequence numbers are 1, 2, ..., n in the order of the list. */
    method CheckSequences(rec: PlanRec, l: seq<TaskId>) returns (contiguous: bool)
      requires forall t :: t in l ==> t in rec.tasks
      ensures contiguous <==> Contiguous(rec, l)
    {
      var i := 0;
      while i < |l|
        invariant 0 <= i <= |l|
        invariant forall k :: 0 <= k < i ==> l[k] in rec.tasks && rec.tasks[l[k]].sequence == k + 1
      {
        var t := l[i];
        assert t in l;
        if rec.tasks[t].sequence != i + 1 {
          return false;
        }
        i := i + 1;
      }
      return true;
    }

    /** Every draft becomes pending. */
    method PublishTasks(rec: PlanRec, l: seq<TaskId>) returns (tasks: map<TaskId, Task>)
      requires forall t :: t in l <==> t in rec.tasks && rec.tasks[t].status == TaskDraft
      ensures tasks == PublishRows(rec, {}).tasks
    {
      tasks := SetStatus(rec.tasks, (set t | t in rec.tasks && t in l), Pending);
      ghost var goal := PublishRows(rec, {}).tasks;
      assert forall t :: t in rec.tasks ==> tasks[t] == goal[t];
      assert tasks == goal;
    }

    /** `FinalizePlanUseCase.execute` */
    method FinalizePlan(p: PlanId, turn: TurnId, id: EventId, now: int) returns (e: Option<PlanningError>)
      modifies this`db
      ensures (db, e) == Finalize(old(db), p, turn, id, now)
    {
      var guard := CheckPlanning(p, turn);
      if guard.Some? {
        return guard;
      }
      var plan := db.plans[p];
      var l := Drafts(plan);
      if |l| == 0 {
        return Some(TaskCountInvalid);
      }
      if |l| > MAX_TASKS_PER_PLAN {
        return Some(TaskLimitExceeded);
      }
      var contiguous := CheckSequences(plan, l);
      if !contiguous {
        return Some(SequenceInvalid);
      }
      var pairs, error := ValidateDag(plan, l);
      if error.Some? {
        return Some(InvalidDag(error.value));
      }
      if turn !in db.turns {
        return Some(TurnNotFound);
      }
      if db.turns[turn].status !in {ContextReady, Processing} {
        return Some(TurnStateConflict);
      }
      e := None;
      CommitPublication(p, turn, l, pairs, id, now);
    }

    method ValidateDag(rec: PlanRec, l: seq<TaskId>) returns (pairs: seq<(TaskId, TaskId)>, error: Option<DagError>)
      requires forall t :: t in l ==> t in rec.tasks
      ensures error == DagVerdict(DraftsOf(rec, l))
      ensures error.None? ==> forall t, u :: (t, u) in pairs <==> (t, u) in EdgeSet(rec, l)
    {
      var drafts := DraftsOf(rec, l);
      var validator := new DagValidator();
      var r := validator.Validate(drafts);
      VerdictOfValidator(drafts, validator.graph, r);
      if r.Failure? {
        return [], Some(r.error);
      }
      EdgesOfTasks(rec, l);
      return r.value, None;
    }

    method CommitPublication(p: PlanId, turn: TurnId, l: seq<TaskId>, pairs: seq<(TaskId, TaskId)>, id: EventId, now: int)
      requires p in db.plans && turn in db.turns && db.plans[p].turn == turn && l == DraftIds(db.plans[p])
      requires forall t, u :: (t, u) in pairs <==> (t, u) in EdgeSet(db.plans[p], l)
      modifies this`db
      ensures db == SetTurn(CommitPlan(old(db), p, Publish(old(db).plans[p]), Some(EmitWakeup(None, None, now)), id, None, now),
                            turn, Processing)
    {
      var plan := db.plans[p];
      var tasks := PublishTasks(plan, l);
      var edges := set d | d in pairs;
      SameEdges(plan, l, pairs, edges);
      plan := plan.(deps := plan.deps + edges);
      plan := plan.(tasks := tasks);
      plan := plan.(status := Ready);
      var wakeup := Event(p, PlanWakeup(None, None), EventPending, 0, now);
      db := db.(plans := db.plans[p := plan], outbox := db.outbox[id := wakeup],
                turns := db.turns[turn := db.turns[turn].(status := Processing)]);
    }

    /** `_MarkPlanUseCase._execute` with the target unsupported */
    method MarkPlanUnsupported(p: PlanId, blank: bool, now: int) returns (e: Option<PlanningError>)
      modifies this`db
      ensures (db, e) == MarkUnsupported(old(db), p, blank, now)
    {
      if blank {
        return Some(InvalidFailureReason);
      }
      if p !in db.plans {
        return Some(PlanNotFound);
      }
      var plan := db.plans[p];
      if plan.status != WorkflowRows.Planning {
        return Some(PlanStateConflict);
      }
      plan := plan.(status := Unsupported);
      db := db.(plans := db.plans[p := plan]);
      return None;
    }

    /** `_MarkPlanUseCase._execute` with the target retry_pending: a missing turn rolls everything back. */
    method MarkPlanRetryPending(p: PlanId, blank: bool, id: EventId, now: int) returns (e: Option<PlanningError>)
      modifies this`db
      ensures (db, e) == MarkRetryPending(old(db), p, blank, id, now)
    {
      if blank {
        return Some(InvalidFailureReason);
      }
      if p !in db.plans {
        return Some(PlanNotFound);
      }
      var plan := db.plans[p];
      if plan.status != NeedsClarification && plan.status != WorkflowRows.Planning {
        return Some(PlanStateConflict);
      }
      plan := plan.(status := RetryPending);
      var clarifications := db.clarifications;
      if plan.turn in clarifications && clarifications[plan.turn].plan == p {
        clarifications := clarifications[plan.turn := clarifications[plan.turn].(status := ClarificationExpired)];
      }
      if plan.turn !in db.turns {
        return Some(TurnNotFound);
      }
      var turn := db.turns[plan.turn];
      var request := ReplanRequested(
        plan.workflow, turn.conversation, plan.turn, p, plan.revision + 1, PlannerSystemFailure);
      db := db.(plans := db.plans[p := plan], clarifications := clarifications,
                turns := db.turns[plan.turn := turn.(status := Processing)],
                outbox := db.outbox[id := Event(p, request, EventPending, 0, now)]);
      return None;
    }

    /** `MarkPlanNeedsClarificationUseCase.execute` */
    method MarkPlanNeedsClarification(p: PlanId, conversation: ConversationId) returns (e: Option<PlanningError>)
      modifies this`db
      ensures (db, e) == MarkNeedsClarification(old(db), p, conversation)
    {
      if p !in db.plans {
        return Some(PlanNotFound);
      }
      var plan := db.plans[p];
      if plan.status != WorkflowRows.Planning {
        return Some(PlanStateConflict);
      }
      if plan.turn !in db.turns {
        return Some(TurnNotFound);
      }
      var turn := db.turns[plan.turn];
      if turn.conversation != conversation {
        return Some(ClarificationConversationConflict);
      }
      if turn.status !in {ContextReady, Processing} {
        return Some(TurnStateConflict);
      }
      if plan.turn in db.clarifications {
        return Some(ClarificationConflict);
      }
      turn := turn.(status := AwaitingAnswer);
      var question := Clarification(conversation, p, ClarificationOpen);
      db := db.(plans := db.plans[p := plan.(status := NeedsClarification)],
                turns := db.turns[plan.turn := turn],
                clarifications := db.clarifications[plan.turn := question]);
      return None;
    }

    /** `AnswerClarificationUseCase.execute` */
    method AnswerClarification(turn: TurnId, conversation: ConversationId, blank: bool, id: EventId, now: int)
      returns (e: Option<AnswerError>)
      modifies this`db
      ensures (db, e) == Answer(old(db), turn, conversation, blank, id, now)
    {
      if blank {
        return Some(BlankAnswer);
      }
      if turn !in db.clarifications {
        return Some(NoClarification);
      }
      var request := db.clarifications[turn];
      if turn !in db.turns || request.plan !in db.plans {
        return Some(IncompleteState);
      }
      var source, plan := db.turns[turn], db.plans[request.plan];
      if source.conversation != conversation || request.conversation != conversation {
        return Some(WrongConversation);
      }
      if plan.turn != turn || request.status != ClarificationOpen || source.status != AwaitingAnswer
         || plan.status != NeedsClarification {
        return Some(WrongState);
      }
      if source.answered {
        return Some(AlreadyAnswered);
      }
      var p := request.plan;
      request := request.(status := Answered);
      source := source.(answered := true);
      source := source.(status := Processing);
      var replan := ReplanRequested(plan.workflow, conversation, turn, p, plan.revision + 1, ClarificationAnswered);
      assert db.plans[p := plan] == db.plans;
      db := db.(clarifications := db.clarifications[turn := request], turns := db.turns[turn := source],
                outbox := db.outbox[id := Event(p, replan, EventPending, 0, now)]);
      return None;
    }

    // ---------- Replanning ----------

    /** `set_unfinished_status` */
    method SetUnfinishedStatus(rec: PlanRec, status: TaskStatus) returns (r: PlanRec)
      ensures r == SetUnfinished(rec, status)
    {
      var unfinished := set t | t in rec.tasks && !Finished(rec.tasks[t].status);
      var tasks := SetStatus(rec.tasks, unfinished, status);
      ghost var goal := SetUnfinished(rec, status).tasks;
      assert forall t :: t in rec.tasks ==> tasks[t] == goal[t];
      assert tasks == goal;
      return rec.(tasks := tasks);
    }

    /** `get_by_workflow_and_revision`: unique, because revisions of a workflow are. */
    method GetRevision(w: WorkflowId, revision: nat) returns (r: Option<PlanId>)
      requires RevisionsOk(db)
      ensures r == PlanAt(db, w, revision)
    {
      var found := set p | p in db.plans && db.plans[p].workflow == w && db.plans[p].revision == revision;
      if |found| > 0 {
        var p := Pick(found);
        assert IsRevision(db, w, revision, p);
        return Some(p);
      }
      assert found == {};
      forall p ensures !IsRevision(db, w, revision, p) {
        assert p !in found;
      }
      return None;
    }

    /** `_prepare_revision`; missed says that the inbox was read before another worker recorded the event. */
    method PrepareNextRevision(e: EventId, k: EventKind, q: PlanId, leaseOver: bool, missed: bool) returns (r: Preparation)
      requires RevisionsOk(db) && k.ReplanRequested?
      modifies this`db
      ensures (db, r) == Prepare(old(db), e, k, q, leaseOver, missed)
    {
      var existing := GetRevision(k.workflow, k.nextRevision);
      if !missed && (PlanningReplan, e) in db.inbox {
        if existing.None? || db.plans[existing.value].status != WorkflowRows.Planning || !leaseOver {
          return NothingToPlan;
        }
        return Prepared(existing.value, db.plans[existing.value].revision);
      }
      var p, t := k.previousPlan, k.rootTurn;
      if p !in db.plans || t !in db.turns {
        return ReplanRaised;
      }
      var previous := db.plans[p];
      if previous.workflow != k.workflow || db.turns[t].conversation != k.conversation {
        return ReplanRaised;
      }
      if k.nextRevision > MAX_PLAN_REVISIONS {
        previous := SetUnfinishedStatus(previous, TaskFailed);
        previous := previous.(status := PlanFailed);
        db := db.(plans := db.plans[p := previous], turns := db.turns[t := db.turns[t].(status := TurnFailed)],
                  inbox := db.inbox + {(PlanningReplan, e)});
        return NothingToPlan;
      }
      if existing.Some? {
        db := db.(inbox := db.inbox + {(PlanningReplan, e)});
        return if db.plans[existing.value].status == WorkflowRows.Planning
               then Prepared(existing.value, db.plans[existing.value].revision) else NothingToPlan;
      }
      r := CommitNextRevision(e, k, q);
    }

    method CommitNextRevision(e: EventId, k: EventKind, q: PlanId) returns (r: Preparation)
      requires k.ReplanRequested? && k.previousPlan in db.plans
      modifies this`db
      ensures r == Prepared(q, k.nextRevision)
      ensures db == RecordInbox(RequestedRevision(old(db), k, q), PlanningReplan, e)
    {
      var previous := SetUnfinishedStatus(db.plans[k.previousPlan], TaskSuperseded);
      previous := previous.(status := Superseded);
      var plans := db.plans[k.previousPlan := previous];
      var plan := PlanRec(k.workflow, k.rootTurn, Some(k.previousPlan), k.nextRevision, WorkflowRows.Planning, None,
                          map[], {}, map[]);
      db := db.(plans := plans[q := plan], inbox := db.inbox + {(PlanningReplan, e)});
      return Prepared(q, k.nextRevision);
    }
  }

  lemma SameEdges(rec: PlanRec, l: seq<TaskId>, pairs: seq<(TaskId, TaskId)>, edges: set<(TaskId, TaskId)>)
    requires forall t :: t in l ==> t in rec.tasks
    requires forall t, u :: (t, u) in pairs <==> (t, u) in EdgeSet(rec, l)
    requires edges == set d | d in pairs
    ensures edges == EdgeSet(rec, l)
  {
    forall d ensures d in edges <==> d in EdgeSet(rec, l) {
      var t, u := d.0, d.1;
      assert d == (t, u);
      assert (t, u) in pairs <==> (t, u) in EdgeSet(rec, l);
    }
  }

  /** Edges connect tasks of the list. */
  lemma EdgesOfTasks(rec: PlanRec, l: seq<TaskId>)
    requires forall t :: t in l ==> t in rec.tasks
    ensures forall t, u :: IsEdge(DraftsOf(rec, l), t, u) <==> (t, u) in EdgeSet(rec, l)
  {
    var drafts := DraftsOf(rec, l);
    forall t, u | IsEdge(drafts, t, u) ensures t in rec.tasks && u in rec.tasks {
      var i, j :| 0 <= i < |drafts| && 0 <= j < |drafts| && drafts[i].taskId == t && drafts[j].taskId == u
                  && drafts[j].ref in drafts[i].dependsOn;
      assert l[i] in l && l[j] in l;
    }
  }
}
