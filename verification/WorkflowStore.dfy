/**
  The workflow database: plans with their partitions, the outbox, the inbox, turns and
  clarifications, and the invariant that ties them together.
 */
module WorkflowStore {
  import opened Common
  import opened WorkflowRows
  import opened PlanLifecycle

  datatype EventKind =
    | PlanWakeup(execution: Option<ExecutionId>, operation: Option<OperationId>)
    | ReplanRequested(
        workflow: WorkflowId, conversation: ConversationId, rootTurn: TurnId, previousPlan: PlanId,
        nextRevision: nat, trigger: ReplanTrigger)
    | AggregationRequested

  datatype EventStatus = EventPending | Published | DeadLetter

  datatype Event = Event(plan: PlanId, kind: EventKind, status: EventStatus, attempts: nat, availableAt: int)

  datatype Consumer = TaskRuntime | PlanningReplan | RuntimeDispatcher

  datatype TurnStatus = Routing | ContextReady | Processing | TurnCompleted | TurnFailed | AwaitingAnswer

  datatype Turn = Turn(conversation: ConversationId, status: TurnStatus, answered: bool)

  datatype ClarificationStatus = ClarificationOpen | Answered | Resolved | ClarificationExpired

  datatype Clarification = Clarification(conversation: ConversationId, plan: PlanId, status: ClarificationStatus)

  /** The inbox has a unique constraint on (consumer, event): it is a set. */
  datatype Db = Db(
    plans: map<PlanId, PlanRec>, outbox: map<EventId, Event>, inbox: set<(Consumer, EventId)>,
    turns: map<TurnId, Turn>, clarifications: map<TurnId, Clarification>)

  function ConsumerOf(k: EventKind): Consumer {
    match k
    case PlanWakeup(_, _) => TaskRuntime
    case ReplanRequested(_, _, _, _, _, _) => PlanningReplan
    case AggregationRequested => RuntimeDispatcher
  }

  predicate Consumed(db: Db, e: EventId)
    requires e in db.outbox
  {
    (ConsumerOf(db.outbox[e].kind), e) in db.inbox
  }

  // ---------- Writing ----------

  function KindOf(p: PlanId, rec: PlanRec, conversation: ConversationId, emit: Emission): EventKind {
    match emit
    case EmitWakeup(x, o, _) => PlanWakeup(x, o)
    case EmitReplan(trigger) => ReplanRequested(rec.workflow, conversation, rec.turn, p, rec.revision + 1, trigger)
    case EmitAggregation => AggregationRequested
  }

  function EventOf(p: PlanId, rec: PlanRec, conversation: ConversationId, emit: Emission, now: int): Event {
    Event(p, KindOf(p, rec, conversation, emit), EventPending, 0, if emit.EmitWakeup? then emit.at else now)
  }

  /** Commit the rows of one plan, with at most one new outbox row and one new inbox row of the runtime. */
  function CommitPlan(
    db: Db, p: PlanId, rec: PlanRec, emit: Option<Emission>, id: EventId, consume: Option<EventId>, now: int
  ): Db
    requires rec.turn in db.turns
  {
    var outbox := if emit.None? then db.outbox
                  else db.outbox[id := EventOf(p, rec, db.turns[rec.turn].conversation, emit.value, now)];
    var inbox := if consume.None? then db.inbox else db.inbox + {(TaskRuntime, consume.value)};
    db.(plans := db.plans[p := rec], outbox := outbox, inbox := inbox)
  }

  // ---------- The invariant of the database ----------

  ghost predicate PlansOk(cfg: Config, db: Db) {
    && (forall p {:trigger PlanInv(cfg, db.plans[p])} :: p in db.plans ==> PlanInv(cfg, db.plans[p]))
    && (forall p :: p in db.plans ==> db.plans[p].turn in db.turns)
  }

  ghost predicate HasSuccessor(db: Db, p: PlanId) {
    exists q :: q in db.plans && db.plans[q].parent == Some(p)
  }

  /** Revision r > 1 continues its parent; a plan is superseded exactly when it has been continued. */
  ghost predicate ParentOk(db: Db, p: PlanId)
    requires p in db.plans
  {
    var rec := db.plans[p];
    && 1 <= rec.revision <= MAX_PLAN_REVISIONS
    && (rec.parent.None? ==> rec.revision == 1)
    && (rec.parent.Some? ==>
          && rec.parent.value in db.plans
          && db.plans[rec.parent.value].workflow == rec.workflow && db.plans[rec.parent.value].turn == rec.turn
          && db.plans[rec.parent.value].revision + 1 == rec.revision)
  }

  ghost predicate RevisionsOk(db: Db) {
    && (forall p {:trigger ParentOk(db, p)} :: p in db.plans ==> ParentOk(db, p))
    && (forall p {:trigger HasSuccessor(db, p)} :: p in db.plans ==>
          (db.plans[p].status == Superseded <==> HasSuccessor(db, p)))
    && (forall p, q :: p in db.plans && q in db.plans && p != q && db.plans[p].workflow == db.plans[q].workflow ==>
          db.plans[p].revision != db.plans[q].revision)
  }

  predicate Abandoned(s: PlanStatus) {
    s in {ReplanPending, RetryPending, NeedsClarification, Superseded, PlanFailed}
  }

  /** A replan event describes its plan, and a plan that asked for a replan has been given up for good. */
  ghost predicate EventOk(db: Db, e: EventId)
    requires e in db.outbox
  {
    var event := db.outbox[e];
    && event.plan in db.plans
    && (event.kind.ReplanRequested? ==>
          var k, rec := event.kind, db.plans[event.plan];
          && k.previousPlan == event.plan && k.workflow == rec.workflow && k.rootTurn == rec.turn
          && k.nextRevision == rec.revision + 1
          && rec.turn in db.turns && k.conversation == db.turns[rec.turn].conversation
          && Abandoned(rec.status))
    && (event.kind.AggregationRequested? ==> db.plans[event.plan].status == Completed)
  }

  ghost predicate EventsOk(db: Db) {
    && (forall e {:trigger EventOk(db, e)} :: e in db.outbox ==> EventOk(db, e))
    && (forall c, e :: (c, e) in db.inbox ==> e in db.outbox && c == ConsumerOf(db.outbox[e].kind))
  }

  ghost predicate ClaimedFor(db: Db, p: PlanId, x: ExecutionId, e: EventId) {
    p in db.plans && x in db.plans[p].executions && db.plans[p].executions[x].claimedBy == Some(e)
  }

  /** The execution started for an event: the event is in the inbox, and no other execution was started for it. */
  ghost predicate ClaimsOk(db: Db) {
    && (forall p, x, e :: ClaimedFor(db, p, x, e) ==> (TaskRuntime, e) in db.inbox)
    && (forall p, x, q, y, e :: ClaimedFor(db, p, x, e) && ClaimedFor(db, q, y, e) ==> p == q && x == y)
  }

  /** A clarification belongs to a plan of its turn. */
  ghost predicate ClarificationOk(db: Db, t: TurnId)
    requires t in db.clarifications
  {
    db.clarifications[t].plan in db.plans && db.plans[db.clarifications[t].plan].turn == t
  }

  ghost predicate ClarificationsOk(db: Db) {
    forall t {:trigger ClarificationOk(db, t)} :: t in db.clarifications ==> ClarificationOk(db, t)
  }

  // ---------- Drivers ----------

  ghost predicate LiveWakeup(db: Db, p: PlanId, e: EventId) {
    e in db.outbox && db.outbox[e].plan == p && db.outbox[e].kind.PlanWakeup? && (TaskRuntime, e) !in db.inbox
  }

  predicate Plain(k: EventKind) {
    k == PlanWakeup(None, None)
  }

  ghost predicate IsPlainAfter(db: Db, p: PlanId, at: int, e: EventId) {
    LiveWakeup(db, p, e) && Plain(db.outbox[e].kind) && db.outbox[e].availableAt >= at
  }

  ghost predicate IsMatching(db: Db, p: PlanId, x: ExecutionId, o: OperationId, e: EventId) {
    LiveWakeup(db, p, e) && (Plain(db.outbox[e].kind) || db.outbox[e].kind == PlanWakeup(Some(x), Some(o)))
  }

  ghost predicate IsPlain(db: Db, p: PlanId, e: EventId) {
    LiveWakeup(db, p, e) && Plain(db.outbox[e].kind)
  }

  ghost predicate IsReplan(db: Db, p: PlanId, e: EventId) {
    && e in db.outbox && db.outbox[e].plan == p && db.outbox[e].kind.ReplanRequested?
    && (PlanningReplan, e) !in db.inbox
  }

  ghost predicate IsAggregation(db: Db, p: PlanId, e: EventId) {
    e in db.outbox && db.outbox[e].plan == p && db.outbox[e].kind == AggregationRequested
  }

  ghost predicate HasPlainAfter(db: Db, p: PlanId, at: int) {
    exists e :: IsPlainAfter(db, p, at, e)
  }

  ghost predicate HasMatching(db: Db, p: PlanId, x: ExecutionId, o: OperationId) {
    exists e :: IsMatching(db, p, x, o, e)
  }

  ghost predicate HasPlain(db: Db, p: PlanId) {
    exists e :: IsPlain(db, p, e)
  }

  ghost predicate HasReplan(db: Db, p: PlanId) {
    exists e :: IsReplan(db, p, e)
  }

  ghost predicate HasAggregation(db: Db, p: PlanId) {
    exists e :: IsAggregation(db, p, e)
  }

  function LeaseEnd(cfg: Config, task: Task): int {
    task.startedAt + cfg.Of(task.capability).timeout
  }

  /** The event that will move an execution on: not before its lease ends, or for its compensation. */
  ghost predicate ExecutionDriven(cfg: Config, db: Db, p: PlanId, x: ExecutionId)
    requires p in db.plans && x in db.plans[p].executions
  {
    var rec, e := db.plans[p], db.plans[p].executions[x];
    && (e.status == ExecRunning && e.task in rec.tasks ==> HasPlainAfter(db, p, LeaseEnd(cfg, rec.tasks[e.task])))
    && (e.status == CompensationRequired ==> HasMatching(db, p, x, e.operation))
  }

  ghost predicate AnswerPending(db: Db, p: PlanId)
    requires p in db.plans
  {
    var rec := db.plans[p];
    && rec.status == NeedsClarification && rec.turn in db.clarifications
    && db.clarifications[rec.turn] == Clarification(db.clarifications[rec.turn].conversation, p, Answered)
  }

  /** No lost driver: whatever a plan is waiting for, there is an unconsumed event that brings it about. */
  ghost predicate Driven(cfg: Config, db: Db, p: PlanId)
    requires p in db.plans
  {
    var rec := db.plans[p];
    && (Open(rec.status) && rec.current.None? ==> HasPlain(db, p))
    && (forall x :: x in rec.executions ==> ExecutionDriven(cfg, db, p, x))
    && (rec.status in {ReplanPending, RetryPending} || AnswerPending(db, p) ==> HasReplan(db, p))
    && (rec.status == Completed ==> HasAggregation(db, p))
  }

  ghost predicate DrivenOk(cfg: Config, db: Db) {
    forall p {:trigger Driven(cfg, db, p)} :: p in db.plans ==> Driven(cfg, db, p)
  }

  ghost predicate DbInv(cfg: Config, db: Db) {
    PlansOk(cfg, db) && RevisionsOk(db) && EventsOk(db) && ClaimsOk(db) && ClarificationsOk(db) && DrivenOk(cfg, db)
  }
}
