/**
  The planning transactions on the database: a new workflow, draft tasks, publication, the
  other ways in which planning can end, and the answer to a clarification. Each keeps the
  invariant of the database.
 */
module PlanningTransactions {
  import opened Common
  import opened PlanDag
  import opened WorkflowRows
  import opened PlanLifecycle
  import opened PlanPreservation
  import opened PlanPublication
  import opened WorkflowStore
  import opened WorkflowCommit

  datatype PlanningError =
    | PlanNotFound | TurnNotFound | PlanStateConflict | PlanTurnConflict | RevisionConflict
    | TaskLimitExceeded | TaskSequenceConflict | TaskRefConflict | TaskDependencyInvalid
    | TaskCountInvalid | SequenceInvalid | InvalidDag(dag: DagError) | TurnStateConflict
    | InvalidFailureReason | ClarificationConversationConflict | ClarificationConflict

  // ---------- The transactions ----------

  ghost predicate HasRevision(db: Db, t: TurnId, revision: nat) {
    exists q :: q in db.plans && db.plans[q].turn == t && db.plans[q].revision == revision
  }

  ghost predicate UsesWorkflow(db: Db, w: WorkflowId) {
    exists q :: q in db.plans && db.plans[q].workflow == w
  }

  function NewPlan(w: WorkflowId, t: TurnId, parent: Option<PlanId>, revision: nat): PlanRec {
    PlanRec(w, t, parent, revision, Planning, None, map[], {}, map[])
  }

  /** The first revision of a new workflow for a turn. */
  ghost function CreatePlan(db: Db, t: TurnId, p: PlanId, w: WorkflowId): (r: (Db, Option<PlanningError>)) {
    if t !in db.turns then (db, Some(TurnNotFound))
    else if HasRevision(db, t, 1) then (db, Some(RevisionConflict))
    else (Rewrite(db, p, NewPlan(w, t, None, 1)), None)
  }

  function PlanningGuard(db: Db, p: PlanId, t: TurnId): Option<PlanningError> {
    if p !in db.plans then Some(PlanNotFound)
    else if db.plans[p].status != Planning then Some(PlanStateConflict)
    else if db.plans[p].turn != t then Some(PlanTurnConflict)
    else None
  }

  datatype NewTask = NewTask(ref: Ref, capability: Capability, dependsOn: seq<Ref>, sequence: int)

  ghost function DraftRejected(rec: PlanRec, task: NewTask): Option<PlanningError> {
    var drafts := set t | t in rec.tasks && rec.tasks[t].status == TaskDraft;
    if |drafts| >= MAX_TASKS_PER_PLAN then Some(TaskLimitExceeded)
    else if exists t :: t in drafts && rec.tasks[t].sequence == task.sequence then Some(TaskSequenceConflict)
    else if exists t :: t in drafts && rec.tasks[t].ref == task.ref then Some(TaskRefConflict)
    else if task.ref in Dedup(task.dependsOn) then Some(TaskDependencyInvalid)
    else None
  }

  function DraftRow(task: NewTask): Task {
    Task(task.ref, task.capability, Dedup(task.dependsOn), task.sequence, TaskDraft, 0, 3, 0)
  }

  /** New rows for plan p, and nothing else. */
  function Rewrite(db: Db, p: PlanId, rec: PlanRec): Db {
    db.(plans := db.plans[p := rec])
  }

  ghost function CreateTask(db: Db, p: PlanId, turn: TurnId, t: TaskId, task: NewTask): (r: (Db, Option<PlanningError>)) {
    if PlanningGuard(db, p, turn).Some? then (db, PlanningGuard(db, p, turn))
    else if DraftRejected(db.plans[p], task).Some? then (db, DraftRejected(db.plans[p], task))
    else (Rewrite(db, p, SetTask(db.plans[p], t, DraftRow(task))), None)
  }

  ghost function PublishError(db: Db, p: PlanId, turn: TurnId): (e: Option<PlanningError>) {
    if PlanningGuard(db, p, turn).Some? then PlanningGuard(db, p, turn)
    else
      var rec := db.plans[p];
      var l := DraftIds(rec);
      if l == [] then Some(TaskCountInvalid)
      else if |l| > MAX_TASKS_PER_PLAN then Some(TaskLimitExceeded)
      else if !Contiguous(rec, l) then Some(SequenceInvalid)
      else if DagVerdict(DraftsOf(rec, l)).Some? then Some(InvalidDag(DagVerdict(DraftsOf(rec, l)).value))
      else if turn !in db.turns then Some(TurnNotFound)
      else if db.turns[turn].status !in {ContextReady, Processing} then Some(TurnStateConflict)
      else None
  }

  function SetTurn(db: Db, t: TurnId, status: TurnStatus): Db
    requires t in db.turns
  {
    db.(turns := db.turns[t := db.turns[t].(status := status)])
  }

  ghost function Finalize(db: Db, p: PlanId, turn: TurnId, id: EventId, now: int): (r: (Db, Option<PlanningError>)) {
    if PublishError(db, p, turn).Some? then (db, PublishError(db, p, turn))
    else (SetTurn(CommitPlan(db, p, Publish(db.plans[p]), Some(EmitWakeup(None, None, now)), id, None, now), turn, Processing),
          None)
  }

  function MarkUnsupported(db: Db, p: PlanId, blank: bool, now: int): (r: (Db, Option<PlanningError>)) {
    if blank then (db, Some(InvalidFailureReason))
    else if p !in db.plans then (db, Some(PlanNotFound))
    else if db.plans[p].status != Planning then (db, Some(PlanStateConflict))
    else (Rewrite(db, p, db.plans[p].(status := Unsupported)), None)
  }

  /** The clarification of plan p is found through the plan's turn. */
  function SetClarification(db: Db, p: PlanId, status: ClarificationStatus): Db
    requires p in db.plans
  {
    var t := db.plans[p].turn;
    if t in db.clarifications && db.clarifications[t].plan == p
    then db.(clarifications := db.clarifications[t := db.clarifications[t].(status := status)]) else db
  }

  function MarkRetryPending(db: Db, p: PlanId, blank: bool, id: EventId, now: int): (r: (Db, Option<PlanningError>)) {
    if blank then (db, Some(InvalidFailureReason))
    else if p !in db.plans then (db, Some(PlanNotFound))
    else if db.plans[p].status !in {Planning, NeedsClarification} then (db, Some(PlanStateConflict))
    else if db.plans[p].turn !in db.turns then (db, Some(TurnNotFound))
    else
      var rec := db.plans[p].(status := RetryPending);
      var b := CommitPlan(db, p, rec, Some(EmitReplan(PlannerSystemFailure)), id, None, now);
      (SetTurn(SetClarification(b, p, ClarificationExpired), rec.turn, Processing), None)
  }

  /** A new open question about plan p. */
  function Ask(db: Db, p: PlanId, conversation: ConversationId): Db
    requires p in db.plans && db.plans[p].turn in db.turns
  {
    var t := db.plans[p].turn;
    SetTurn(db.(clarifications := db.clarifications[t := Clarification(conversation, p, ClarificationOpen)]),
            t, AwaitingAnswer)
  }

  function MarkNeedsClarification(db: Db, p: PlanId, conversation: ConversationId): (r: (Db, Option<PlanningError>)) {
    if p !in db.plans then (db, Some(PlanNotFound))
    else if db.plans[p].status != Planning then (db, Some(PlanStateConflict))
    else if db.plans[p].turn !in db.turns then (db, Some(TurnNotFound))
    else
      var t := db.plans[p].turn;
      if db.turns[t].conversation != conversation then (db, Some(ClarificationConversationConflict))
      else if db.turns[t].status !in {ContextReady, Processing} then (db, Some(TurnStateConflict))
      else if t in db.clarifications then (db, Some(ClarificationConflict))
      else
        (Ask(Rewrite(db, p, db.plans[p].(status := NeedsClarification)), p, conversation), None)
  }

  datatype AnswerError = BlankAnswer | NoClarification | IncompleteState | WrongConversation | WrongState | AlreadyAnswered

  function AnswerVerdict(db: Db, turn: TurnId, conversation: ConversationId, blank: bool): (e: Option<AnswerError>) {
    if blank then Some(BlankAnswer)
    else if turn !in db.clarifications then Some(NoClarification)
    else
      var request := db.clarifications[turn];
      if turn !in db.turns || request.plan !in db.plans then Some(IncompleteState)
      else if db.turns[turn].conversation != conversation || request.conversation != conversation then
        Some(WrongConversation)
      else if || db.plans[request.plan].turn != turn || request.status != ClarificationOpen
              || db.turns[turn].status != AwaitingAnswer || db.plans[request.plan].status != NeedsClarification then
        Some(WrongState)
      else if db.turns[turn].answered then Some(AlreadyAnswered)
      else None
  }

  /** The answered question and the turn that goes on. */
  function RecordAnswer(b: Db, turn: TurnId): Db
    requires turn in b.clarifications && turn in b.turns
  {
    b.(clarifications := b.clarifications[turn := b.clarifications[turn].(status := Answered)],
       turns := b.turns[turn := b.turns[turn].(status := Processing, answered := true)])
  }

  function Answer(db: Db, turn: TurnId, conversation: ConversationId, blank: bool, id: EventId, now: int):
    (r: (Db, Option<AnswerError>))
  {
    if AnswerVerdict(db, turn, conversation, blank).Some? then (db, AnswerVerdict(db, turn, conversation, blank))
    else
      var p := db.clarifications[turn].plan;
      var b := CommitPlan(db, p, db.plans[p], Some(EmitReplan(ClarificationAnswered)), id, None, now);
      (RecordAnswer(b, turn), None)
  }

  // ---------- Side tables ----------

  /** Turns may be added and change their state, clarifications of plan p may change. */
  ghost predicate SideChange(a: Db, b: Db, p: PlanId) {
    && b.plans == a.plans && b.outbox == a.outbox && b.inbox == a.inbox
    && a.turns.Keys <= b.turns.Keys
    && (forall t :: t in a.turns ==> b.turns[t].conversation == a.turns[t].conversation)
    && (forall t :: t in b.clarifications && b.clarifications[t].plan != p ==>
          t in a.clarifications && a.clarifications[t] == b.clarifications[t])
  }

  lemma SideKeeps(cfg: Config, a: Db, b: Db, p: PlanId)
    requires DbInv(cfg, a) && SideChange(a, b, p) && ClarificationsOk(b)
    requires p in b.plans && AnswerPending(b, p) ==> AnswerPending(a, p) || HasReplan(a, p)
    ensures Preserved(cfg, a, b)
  {
    assert DbEvolves(a, b) by { SideEvolves(a, b, p); }
    assert RevisionsOk(b) by { SideRevisions(a, b, p); }
    assert EventsOk(b) && ClaimsOk(b) by { SideEvents(a, b, p); }
    forall q | q in b.plans ensures Driven(cfg, b, q) {
      if q != p {
        OtherDriven(cfg, a, b, p, q);
      } else {
        SideDriven(cfg, a, b, p);
      }
    }
  }

  lemma SideEvolves(a: Db, b: Db, p: PlanId)
    requires SideChange(a, b, p)
    ensures DbEvolves(a, b)
  {
    forall q ensures PlanEvolves(a, b, q) {
      if q in a.plans {
        EvolvesRefl(a.plans[q]);
      }
    }
  }

  lemma SideRevisions(a: Db, b: Db, p: PlanId)
    requires RevisionsOk(a) && SideChange(a, b, p)
    ensures RevisionsOk(b)
  {
    forall q | q in b.plans ensures ParentOk(b, q) && (b.plans[q].status == Superseded <==> HasSuccessor(b, q)) {
      assert ParentOk(a, q);
      assert HasSuccessor(b, q) <==> HasSuccessor(a, q);
    }
  }

  lemma SideEvents(a: Db, b: Db, p: PlanId)
    requires EventsOk(a) && ClaimsOk(a) && SideChange(a, b, p)
    ensures EventsOk(b) && ClaimsOk(b)
  {
    forall e | e in b.outbox ensures EventOk(b, e) {
      assert EventOk(a, e);
    }
    forall q, x, e ensures ClaimedFor(b, q, x, e) <==> ClaimedFor(a, q, x, e) {
    }
  }

  /** Events that drive plan p in a drive it in b. */
  lemma SideDriven(cfg: Config, a: Db, b: Db, p: PlanId)
    requires SideChange(a, b, p) && p in a.plans && Driven(cfg, a, p)
    requires AnswerPending(b, p) ==> AnswerPending(a, p) || HasReplan(a, p)
    ensures Driven(cfg, b, p)
  {
    var rec := a.plans[p];
    if HasPlain(a, p) {
      var d :| IsPlain(a, p, d);
      assert IsPlain(b, p, d);
    }
    if HasReplan(a, p) {
      var d :| IsReplan(a, p, d);
      assert IsReplan(b, p, d);
    }
    if HasAggregation(a, p) {
      var d :| IsAggregation(a, p, d);
      assert IsAggregation(b, p, d);
    }
    forall x | x in rec.executions ensures ExecutionDriven(cfg, b, p, x) {
      SideExecutionDriven(cfg, a, b, p, x);
    }
  }

  lemma SideExecutionDriven(cfg: Config, a: Db, b: Db, p: PlanId, x: ExecutionId)
    requires SideChange(a, b, p) && p in a.plans && x in a.plans[p].executions && ExecutionDriven(cfg, a, p, x)
    ensures ExecutionDriven(cfg, b, p, x)
  {
    var rec, e := a.plans[p], a.plans[p].executions[x];
    if e.status == ExecRunning && e.task in rec.tasks {
      var at := LeaseEnd(cfg, rec.tasks[e.task]);
      var d :| IsPlainAfter(a, p, at, d);
      assert IsPlainAfter(b, p, at, d);
    }
    if e.status == CompensationRequired {
      var d :| IsMatching(a, p, x, e.operation, d);
      assert IsMatching(b, p, x, e.operation, d);
    }
  }

  // ---------- New plans and draft tasks ----------

  lemma NewPlanOk(cfg: Config, w: WorkflowId, t: TurnId, parent: Option<PlanId>, revision: nat)
    ensures PlanInv(cfg, NewPlan(w, t, parent, revision))
  {
    var rank: map<TaskId, nat> := map[];
    assert IsRank({}, rank);
  }

  lemma AddPlanRevisions(db: Db, q: PlanId, rec: PlanRec)
    requires RevisionsOk(db) && q !in db.plans && rec.status == Planning
    requires rec.parent.None? && rec.revision == 1 && !UsesWorkflow(db, rec.workflow)
    ensures RevisionsOk(Rewrite(db, q, rec))
  {
    var b := Rewrite(db, q, rec);
    forall r | r in db.plans ensures db.plans[r].parent != Some(q) {
      assert ParentOk(db, r);
    }
    assert !HasSuccessor(b, q);
    forall p | p in b.plans ensures ParentOk(b, p) && (b.plans[p].status == Superseded <==> HasSuccessor(b, p)) {
      if p in db.plans {
        assert ParentOk(db, p);
        if HasSuccessor(db, p) {
          var r :| r in db.plans && db.plans[r].parent == Some(p);
          assert r in b.plans && b.plans[r].parent == Some(p);
        }
      }
    }
  }

  lemma AddPlanEvents(db: Db, q: PlanId, rec: PlanRec)
    requires EventsOk(db) && ClaimsOk(db) && ClarificationsOk(db) && q !in db.plans && rec.executions == map[]
    ensures var b := Rewrite(db, q, rec);
            EventsOk(b) && ClaimsOk(b) && ClarificationsOk(b)
  {
    var b := Rewrite(db, q, rec);
    forall e | e in b.outbox ensures EventOk(b, e) {
      assert EventOk(db, e);
    }
    forall p, x, e ensures ClaimedFor(b, p, x, e) <==> ClaimedFor(db, p, x, e) {
    }
    forall u | u in b.clarifications ensures ClarificationOk(b, u) {
      assert ClarificationOk(db, u);
    }
  }

  lemma NewPlanUndriven(cfg: Config, b: Db, q: PlanId)
    requires q in b.plans && b.plans[q].executions == map[] && b.plans[q].status == Planning
    ensures Driven(cfg, b, q)
  {
  }

  lemma CreatePlanKeeps(cfg: Config, db: Db, t: TurnId, p: PlanId, w: WorkflowId)
    requires DbInv(cfg, db) && p !in db.plans && !UsesWorkflow(db, w)
    ensures Preserved(cfg, db, CreatePlan(db, t, p, w).0)
  {
    PreservedRefl(cfg, db);
    if t in db.turns && !HasRevision(db, t, 1) {
      var rec := NewPlan(w, t, None, 1);
      NewPlanOk(cfg, w, t, None, 1);
      AddPlanRevisions(db, p, rec);
      AddPlanEvents(db, p, rec);
      NewPlanUndriven(cfg, Rewrite(db, p, rec), p);
      OthersStayOk(cfg, db, Rewrite(db, p, rec), p, p);
      OthersStayDriven(cfg, db, Rewrite(db, p, rec), p, p);
      OnePlanEvolves(db, Rewrite(db, p, rec), p);
    }
  }

  /** Before publication no task has been started. */
  lemma UnstartedTasks(cfg: Config, rec: PlanRec)
    requires StatusOk(rec) && BoundsOk(cfg, rec) && Unpublished(rec.status)
    ensures forall u :: u in rec.tasks ==> rec.tasks[u].status == TaskDraft && rec.tasks[u].attemptCount == 0
  {
    forall u | u in rec.tasks ensures rec.tasks[u].attemptCount == 0 {
      assert TaskBounded(cfg, rec.tasks[u]);
    }
  }

  lemma DraftRows(cfg: Config, rec: PlanRec, t: TaskId, row: Task)
    requires StatusOk(rec) && BoundsOk(cfg, rec) && DepsOk(rec) && rec.status == Planning && t !in rec.tasks
    requires row.status == TaskDraft && row.attemptCount == 0 && CurrentOk(rec)
    ensures var b := SetTask(rec, t, row);
            CurrentOk(b) && StatusOk(b) && AttemptsOk(b) && ExecutionsOk(b) && BoundsOk(cfg, b) && DepsOk(b) && OrderOk(b)
            && HistoryOk(cfg, b)
  {
    var b := SetTask(rec, t, row);
    UnstartedTasks(cfg, rec);
    assert forall u :: u in b.tasks ==> b.tasks[u].attemptCount == 0 && b.tasks[u].status == TaskDraft;
    assert b.deps == {} && b.executions == map[];
  }

  lemma DraftSequences(cfg: Config, rec: PlanRec, t: TaskId, task: NewTask)
    requires StatusOk(rec) && BoundsOk(cfg, rec) && SequencesOk(rec) && rec.status == Planning && t !in rec.tasks
    requires DraftRejected(rec, task).None?
    ensures SequencesOk(SetTask(rec, t, DraftRow(task)))
  {
    var b := SetTask(rec, t, DraftRow(task));
    var drafts := set u | u in rec.tasks && rec.tasks[u].status == TaskDraft;
    UnstartedTasks(cfg, rec);
    forall u, v | u in b.tasks && v in b.tasks && u != v ensures b.tasks[u].sequence != b.tasks[v].sequence {
      assert u in rec.tasks ==> u in drafts;
      assert v in rec.tasks ==> v in drafts;
    }
  }

  lemma DraftKeeps(cfg: Config, rec: PlanRec, t: TaskId, task: NewTask)
    requires PlanInv(cfg, rec) && rec.status == Planning && t !in rec.tasks && DraftRejected(rec, task).None?
    ensures PlanInv(cfg, SetTask(rec, t, DraftRow(task))) && Evolves(rec, SetTask(rec, t, DraftRow(task)))
  {
    DraftRows(cfg, rec, t, DraftRow(task));
    DraftSequences(cfg, rec, t, task);
    JoinInv(cfg, SetTask(rec, t, DraftRow(task)));
  }

  lemma CreateTaskKeeps(cfg: Config, db: Db, p: PlanId, turn: TurnId, t: TaskId, task: NewTask)
    requires DbInv(cfg, db) && (p in db.plans ==> t !in db.plans[p].tasks)
    ensures Preserved(cfg, db, CreateTask(db, p, turn, t, task).0)
  {
    PreservedRefl(cfg, db);
    if PlanningGuard(db, p, turn).None? && DraftRejected(db.plans[p], task).None? {
      var rec := SetTask(db.plans[p], t, DraftRow(task));
      assert PlanInv(cfg, db.plans[p]);
      NoExecutions(db.plans[p]);
      DraftKeeps(cfg, db.plans[p], t, task);
      RewriteKeeps(cfg, db, p, rec);
    }
  }

  lemma NoExecutions(rec: PlanRec)
    requires StatusOk(rec) && Unpublished(rec.status)
    ensures rec.executions == map[]
  {
  }

  lemma RewriteIsCommit(db: Db, p: PlanId, rec: PlanRec)
    requires rec.turn in db.turns
    ensures Rewrite(db, p, rec) == CommitPlan(db, p, rec, None, 0, None, 0)
  {
  }

  lemma Undriven(cfg: Config, b: Db, p: PlanId)
    requires p in b.plans && b.plans[p].executions == map[]
    requires !Open(b.plans[p].status) && b.plans[p].status !in {ReplanPending, RetryPending, Completed}
    requires !AnswerPending(b, p)
    ensures Driven(cfg, b, p)
  {
  }

  /** A change of an unpublished plan's rows needs no event. */
  lemma RewriteKeeps(cfg: Config, db: Db, p: PlanId, rec: PlanRec)
    requires DbInv(cfg, db) && p in db.plans && db.plans[p].status == Planning
    requires PlanInv(cfg, rec) && Evolves(db.plans[p], rec) && rec.executions == map[]
    requires rec.status == Planning || rec.status == Unsupported || rec.status == NeedsClarification
    requires rec.turn in db.clarifications ==> db.clarifications[rec.turn].plan != p || rec.status != NeedsClarification
    ensures Preserved(cfg, db, Rewrite(db, p, rec))
  {
    RewriteIsCommit(db, p, rec);
    Undriven(cfg, Rewrite(db, p, rec), p);
    CommitKeeps(cfg, db, p, rec, None, 0, None, 0);
  }

  // ---------- The other ways in which planning ends ----------

  lemma StatusRows(rec: PlanRec, status: PlanStatus)
    requires CurrentOk(rec) && StatusOk(rec) && Unpublished(rec.status) && Unpublished(status)
    ensures CurrentOk(rec.(status := status)) && StatusOk(rec.(status := status))
  {
  }

  lemma StatusAttempts(rec: PlanRec, status: PlanStatus)
    requires AttemptsOk(rec) && ExecutionsOk(rec) && Unpublished(rec.status) && Unpublished(status)
    ensures AttemptsOk(rec.(status := status)) && ExecutionsOk(rec.(status := status))
  {
    ShapeKeepsAttempts(rec, rec.(status := status));
  }

  lemma StatusTasks(cfg: Config, rec: PlanRec, status: PlanStatus)
    requires BoundsOk(cfg, rec) && SequencesOk(rec) && DepsOk(rec) && OrderOk(rec) && HistoryOk(cfg, rec)
    requires Unpublished(rec.status) && Unpublished(status)
    ensures var b := rec.(status := status);
            BoundsOk(cfg, b) && SequencesOk(b) && DepsOk(b) && OrderOk(b) && HistoryOk(cfg, b)
  {
  }

  lemma StatusEvolves(rec: PlanRec, status: PlanStatus)
    requires Unpublished(rec.status)
    ensures Evolves(rec, rec.(status := status))
  {
  }

  /** Only the plan's status changes, and no draft is published. */
  lemma StatusKeeps(cfg: Config, rec: PlanRec, status: PlanStatus)
    requires PlanInv(cfg, rec) && Unpublished(rec.status) && Unpublished(status)
    ensures PlanInv(cfg, rec.(status := status)) && Evolves(rec, rec.(status := status))
  {
    var b := rec.(status := status);
    StatusRows(rec, status);
    StatusAttempts(rec, status);
    StatusTasks(cfg, rec, status);
    StatusEvolves(rec, status);
  }

  lemma RestatusKeeps(cfg: Config, db: Db, p: PlanId, status: PlanStatus)
    requires DbInv(cfg, db) && p in db.plans && db.plans[p].status == Planning
    requires status == Unsupported || (status == NeedsClarification && db.plans[p].turn !in db.clarifications)
    ensures Preserved(cfg, db, Rewrite(db, p, db.plans[p].(status := status)))
  {
    assert PlanInv(cfg, db.plans[p]);
    NoExecutions(db.plans[p]);
    StatusKeeps(cfg, db.plans[p], status);
    RewriteKeeps(cfg, db, p, db.plans[p].(status := status));
  }

  lemma MarkUnsupportedKeeps(cfg: Config, db: Db, p: PlanId, blank: bool, now: int)
    requires DbInv(cfg, db)
    ensures Preserved(cfg, db, MarkUnsupported(db, p, blank, now).0)
  {
    PreservedRefl(cfg, db);
    if !blank && p in db.plans && db.plans[p].status == Planning {
      RestatusKeeps(cfg, db, p, Unsupported);
    }
  }

  lemma AskedDriven(cfg: Config, db: Db, p: PlanId, rec: PlanRec, trigger: ReplanTrigger, id: EventId, now: int)
    requires EventsOk(db) && id !in db.outbox && rec.turn in db.turns && rec.executions == map[]
    requires rec.status == RetryPending || rec.status == NeedsClarification
    ensures var b := CommitPlan(db, p, rec, Some(EmitReplan(trigger)), id, None, now);
            Driven(cfg, b, p) && HasReplan(b, p)
  {
    assert (PlanningReplan, id) !in db.inbox;
    assert IsReplan(CommitPlan(db, p, rec, Some(EmitReplan(trigger)), id, None, now), p, id);
  }

  /** A replan is asked for plan p: its event drives the plan. */
  lemma AskReplanKeeps(cfg: Config, db: Db, p: PlanId, status: PlanStatus, trigger: ReplanTrigger, id: EventId, now: int)
    requires DbInv(cfg, db) && p in db.plans && id !in db.outbox
    requires db.plans[p].status == Planning || db.plans[p].status == NeedsClarification
    requires status == RetryPending || status == NeedsClarification
    ensures var b := CommitPlan(db, p, db.plans[p].(status := status), Some(EmitReplan(trigger)), id, None, now);
            Preserved(cfg, db, b) && HasReplan(b, p)
  {
    var rec := db.plans[p].(status := status);
    assert PlanInv(cfg, db.plans[p]);
    NoExecutions(db.plans[p]);
    StatusKeeps(cfg, db.plans[p], status);
    AskedDriven(cfg, db, p, rec, trigger, id, now);
    CommitKeeps(cfg, db, p, rec, Some(EmitReplan(trigger)), id, None, now);
  }

  lemma ExpireSide(b: Db, p: PlanId)
    requires ClarificationsOk(b) && p in b.plans && b.plans[p].turn in b.turns && b.plans[p].status == RetryPending
    ensures var c := SetTurn(SetClarification(b, p, ClarificationExpired), b.plans[p].turn, Processing);
            SideChange(b, c, p) && ClarificationsOk(c) && !AnswerPending(c, p)
  {
    var c := SetTurn(SetClarification(b, p, ClarificationExpired), b.plans[p].turn, Processing);
    forall u | u in c.clarifications ensures ClarificationOk(c, u) {
      assert u in b.clarifications ==> ClarificationOk(b, u);
    }
  }

  /** The clarification of plan p, if it has one, expires, and the turn is processed again. */
  lemma ExpireKeeps(cfg: Config, b: Db, p: PlanId)
    requires DbInv(cfg, b) && p in b.plans && b.plans[p].turn in b.turns && b.plans[p].status == RetryPending
    ensures Preserved(cfg, b, SetTurn(SetClarification(b, p, ClarificationExpired), b.plans[p].turn, Processing))
  {
    ExpireSide(b, p);
    SideKeeps(cfg, b, SetTurn(SetClarification(b, p, ClarificationExpired), b.plans[p].turn, Processing), p);
  }

  lemma MarkRetryPendingKeeps(cfg: Config, db: Db, p: PlanId, blank: bool, id: EventId, now: int)
    requires DbInv(cfg, db) && id !in db.outbox
    ensures Preserved(cfg, db, MarkRetryPending(db, p, blank, id, now).0)
  {
    PreservedRefl(cfg, db);
    if !blank && p in db.plans && db.plans[p].status in {Planning, NeedsClarification} && db.plans[p].turn in db.turns {
      var rec := db.plans[p].(status := RetryPending);
      var b := CommitPlan(db, p, rec, Some(EmitReplan(PlannerSystemFailure)), id, None, now);
      AskReplanKeeps(cfg, db, p, RetryPending, PlannerSystemFailure, id, now);
      assert b.plans[p] == rec;
      ExpireKeeps(cfg, b, p);
      PreservedTrans(cfg, db, b, MarkRetryPending(db, p, blank, id, now).0);
    }
  }

  lemma AskSide(b: Db, p: PlanId, conversation: ConversationId)
    requires ClarificationsOk(b)
    requires p in b.plans && b.plans[p].turn in b.turns && b.plans[p].turn !in b.clarifications
    ensures var c := Ask(b, p, conversation);
            SideChange(b, c, p) && ClarificationsOk(c) && !AnswerPending(c, p)
  {
    var c := Ask(b, p, conversation);
    forall u | u in c.clarifications ensures ClarificationOk(c, u) {
      assert u in b.clarifications ==> ClarificationOk(b, u);
    }
  }

  /** A new question is open: no answer is pending. */
  lemma AskKeeps(cfg: Config, b: Db, p: PlanId, conversation: ConversationId)
    requires DbInv(cfg, b) && p in b.plans && b.plans[p].turn in b.turns && b.plans[p].turn !in b.clarifications
    ensures Preserved(cfg, b, Ask(b, p, conversation))
  {
    AskSide(b, p, conversation);
    SideKeeps(cfg, b, Ask(b, p, conversation), p);
  }

  lemma MarkNeedsClarificationKeeps(cfg: Config, db: Db, p: PlanId, conversation: ConversationId)
    requires DbInv(cfg, db)
    ensures Preserved(cfg, db, MarkNeedsClarification(db, p, conversation).0)
  {
    PreservedRefl(cfg, db);
    if MarkNeedsClarification(db, p, conversation).1.None? {
      var rec := db.plans[p].(status := NeedsClarification);
      RestatusKeeps(cfg, db, p, NeedsClarification);
      AskKeeps(cfg, Rewrite(db, p, rec), p, conversation);
      PreservedTrans(cfg, db, Rewrite(db, p, rec), Ask(Rewrite(db, p, rec), p, conversation));
    }
  }

  lemma AnsweredSide(b: Db, p: PlanId, turn: TurnId)
    requires ClarificationsOk(b) && p in b.plans && b.plans[p].turn == turn
    requires turn in b.turns && turn in b.clarifications && b.clarifications[turn].plan == p
    ensures SideChange(b, RecordAnswer(b, turn), p) && ClarificationsOk(RecordAnswer(b, turn))
  {
    var c := RecordAnswer(b, turn);
    forall u | u in c.clarifications ensures ClarificationOk(c, u) {
      assert u in b.clarifications ==> ClarificationOk(b, u);
    }
  }

  lemma AnsweredKeeps(cfg: Config, b: Db, p: PlanId, turn: TurnId)
    requires DbInv(cfg, b) && p in b.plans && b.plans[p].turn == turn && HasReplan(b, p)
    requires turn in b.turns && turn in b.clarifications && b.clarifications[turn].plan == p
    ensures Preserved(cfg, b, RecordAnswer(b, turn))
  {
    AnsweredSide(b, p, turn);
    SideKeeps(cfg, b, RecordAnswer(b, turn), p);
  }

  /** An answer asks for the replan that the answered plan is waiting for. */
  lemma AnswerKeeps(cfg: Config, db: Db, turn: TurnId, conversation: ConversationId, blank: bool, id: EventId, now: int)
    requires DbInv(cfg, db) && id !in db.outbox
    ensures Preserved(cfg, db, Answer(db, turn, conversation, blank, id, now).0)
  {
    PreservedRefl(cfg, db);
    if AnswerVerdict(db, turn, conversation, blank).None? {
      var p := db.clarifications[turn].plan;
      var rec := db.plans[p];
      AskReplanKeeps(cfg, db, p, NeedsClarification, ClarificationAnswered, id, now);
      assert rec.(status := NeedsClarification) == rec;
      var b := CommitPlan(db, p, rec, Some(EmitReplan(ClarificationAnswered)), id, None, now);
      AnsweredKeeps(cfg, b, p, turn);
      PreservedTrans(cfg, db, b, RecordAnswer(b, turn));
    }
  }

  // ---------- Publication ----------

  lemma PublishDriven(cfg: Config, db: Db, p: PlanId, rec: PlanRec, id: EventId, now: int)
    requires EventsOk(db) && rec.turn in db.turns && id !in db.outbox
    requires rec.status == Ready && rec.executions == map[]
    ensures Driven(cfg, CommitPlan(db, p, rec, Some(EmitWakeup(None, None, now)), id, None, now), p)
  {
    assert (TaskRuntime, id) !in db.inbox;
    assert IsPlain(CommitPlan(db, p, rec, Some(EmitWakeup(None, None, now)), id, None, now), p, id);
  }

  lemma PublishCommits(cfg: Config, db: Db, p: PlanId, id: EventId, now: int)
    requires DbInv(cfg, db) && id !in db.outbox && p in db.plans && MayPublish(db.plans[p])
    ensures Preserved(cfg, db, CommitPlan(db, p, Publish(db.plans[p]), Some(EmitWakeup(None, None, now)), id, None, now))
  {
    PublishKeeps(cfg, db.plans[p]);
    NoExecutions(db.plans[p]);
    PublishedCommits(cfg, db, p, Publish(db.plans[p]), id, now);
  }

  lemma PublishedCommits(cfg: Config, db: Db, p: PlanId, rec: PlanRec, id: EventId, now: int)
    requires DbInv(cfg, db) && id !in db.outbox && p in db.plans && db.plans[p].status == Planning
    requires PlanInv(cfg, rec) && Evolves(db.plans[p], rec) && rec.status == Ready && rec.executions == map[]
    ensures Preserved(cfg, db, CommitPlan(db, p, rec, Some(EmitWakeup(None, None, now)), id, None, now))
  {
    PublishDriven(cfg, db, p, rec, id, now);
    CommitKeeps(cfg, db, p, rec, Some(EmitWakeup(None, None, now)), id, None, now);
  }

  lemma TurnStatusKeeps(cfg: Config, b: Db, p: PlanId, turn: TurnId, status: TurnStatus)
    requires DbInv(cfg, b) && turn in b.turns
    ensures Preserved(cfg, b, SetTurn(b, turn, status))
  {
    TurnStatusSide(b, p, turn, status);
    SideKeeps(cfg, b, SetTurn(b, turn, status), p);
  }

  lemma TurnStatusSide(b: Db, p: PlanId, turn: TurnId, status: TurnStatus)
    requires ClarificationsOk(b) && turn in b.turns
    ensures var c := SetTurn(b, turn, status);
            SideChange(b, c, p) && ClarificationsOk(c) && (p in c.plans && AnswerPending(c, p) ==> AnswerPending(b, p))
  {
    var c := SetTurn(b, turn, status);
    forall u | u in c.clarifications ensures ClarificationOk(c, u) {
      assert ClarificationOk(b, u);
    }
  }

  lemma FinalizeKeeps(cfg: Config, db: Db, p: PlanId, turn: TurnId, id: EventId, now: int)
    requires DbInv(cfg, db) && id !in db.outbox
    ensures Preserved(cfg, db, Finalize(db, p, turn, id, now).0)
  {
    PreservedRefl(cfg, db);
    if PublishError(db, p, turn).None? {
      assert MayPublish(db.plans[p]);
      PublishCommits(cfg, db, p, id, now);
      var b := CommitPlan(db, p, Publish(db.plans[p]), Some(EmitWakeup(None, None, now)), id, None, now);
      TurnStatusKeeps(cfg, b, p, turn, Processing);
      PreservedTrans(cfg, db, b, SetTurn(b, turn, Processing));
    }
  }

  // ---------- Turns ----------

  function OpenNewTurn(db: Db, t: TurnId, conversation: ConversationId): Db {
    if t in db.turns then db else db.(turns := db.turns[t := Turn(conversation, Routing, false)])
  }

  lemma OpenTurnSide(b: Db, p: PlanId, t: TurnId, conversation: ConversationId)
    requires ClarificationsOk(b)
    ensures var c := OpenNewTurn(b, t, conversation);
            SideChange(b, c, p) && ClarificationsOk(c) && (p in c.plans && AnswerPending(c, p) ==> AnswerPending(b, p))
  {
    var c := OpenNewTurn(b, t, conversation);
    forall u | u in c.clarifications ensures ClarificationOk(c, u) {
      assert ClarificationOk(b, u);
    }
  }

  lemma OpenTurnKeeps(cfg: Config, db: Db, t: TurnId, conversation: ConversationId)
    requires DbInv(cfg, db)
    ensures Preserved(cfg, db, OpenNewTurn(db, t, conversation))
  {
    OpenTurnSide(db, 0, t, conversation);
    SideKeeps(cfg, db, OpenNewTurn(db, t, conversation), 0);
  }
}
