/**
  The whole workflow engine as a transition system: the database, the Redis stream with its
  consumer group, the workers and publishers in the middle of their work, and the clock.
  An action is one short transaction, one Redis command, one decision of the environment, a
  crash or a tick; an action that is not possible in a state leaves the state unchanged, so
  every sequence of actions is a run.
 */
module WorkflowSystem {
  import opened Common
  import opened PlanDag
  import opened WorkflowRows
  import opened PlanLifecycle
  import opened WorkflowStore
  import opened RuntimeTransactions
  import opened PlanningTransactions
  import opened ReplanTransactions

  type EntryId = int
  type JobId = int

  /** Where a worker or publisher stands between two of its transactions. */
  datatype Step =
    | Waking(event: EventId)
    | Claiming(plan: PlanId, wakeup: Option<EventId>, wantedExecution: Option<ExecutionId>, wantedOperation: Option<OperationId>)
    | Executing(snapshot: Snapshot)
    | Recovering(snapshot: Snapshot, wakeup: Option<EventId>)
    | Compensating(snapshot: Snapshot, wakeup: Option<EventId>, attempt: nat)
    | Replanning(event: EventId)
    | RunningPlanner
    | CheckingAggregation(event: EventId)
    | Aggregating(event: EventId)
    | Resolving(event: EventId)
    | Recording(event: EventId)
    | Handled
    | Publishing(event: EventId)
    | Marking(event: EventId, sent: bool)

  /** A job works for the stream entry it will acknowledge, if it was started by a delivery. */
  datatype Job = Job(entry: Option<EntryId>, step: Step)

  datatype Sys = Sys(db: Db, stream: map<EntryId, EventId>, acked: set<EntryId>, jobs: map<JobId, Job>, now: int)

  datatype Action =
    | Tick(seconds: nat)
    | OpenTurn(turn: TurnId, conversation: ConversationId)
    | TurnBecomes(turn: TurnId, status: TurnStatus)
    // planner and user
    | StartWorkflow(turn: TurnId, plan: PlanId, workflow: WorkflowId)
    | DraftTask(plan: PlanId, turn: TurnId, task: TaskId, row: NewTask)
    | PublishPlan(plan: PlanId, turn: TurnId, id: EventId)
    | DeclareUnsupported(plan: PlanId, blank: bool)
    | RetryPlanning(plan: PlanId, blank: bool, id: EventId)
    | AskUser(plan: PlanId, conversation: ConversationId)
    | AnswerUser(turn: TurnId, conversation: ConversationId, blank: bool, id: EventId)
    // outbox
    | Load(job: JobId, event: EventId)
    | Send(job: JobId, entry: EntryId, added: bool, reported: bool)
    | Mark(job: JobId)
    // worker
    | Deliver(job: JobId, entry: EntryId)
    | CallRuntime(job: JobId, plan: PlanId)
    | CheckInbox(job: JobId)
    | ClaimFor(job: JobId, ids: NewIds, id: EventId)
    | Succeed(job: JobId, refs: seq<string>, id: EventId)
    | Fail(job: JobId, error: TaskError, id: EventId)
    | BeginAttempt(job: JobId)
    | AttemptFails(job: JobId, id: EventId)
    | AttemptSucceeds(job: JobId, id: EventId)
    | PrepareRevision(job: JobId, plan: PlanId, leaseOver: bool, missed: bool)
    | PlannerReturns(job: JobId)
    | AggregateTurn(job: JobId)
    | ResolveQuestion(job: JobId)
    | RecordAggregation(job: JobId)
    | Ack(job: JobId)
    | Crash(job: JobId)

  const MAX_PUBLISH_ATTEMPTS: nat := 10

  // ---------- One action ----------

  function Put(st: Sys, db: Db, j: JobId, step: Step): Sys
    requires j in st.jobs
  {
    st.(db := db, jobs := st.jobs[j := st.jobs[j].(step := step)])
  }

  /** An exception or a crash ends the work; a delivered entry stays unacknowledged. */
  function Drop(st: Sys, j: JobId): Sys {
    st.(jobs := st.jobs - {j})
  }

  function At(st: Sys, j: JobId): Step {
    if j in st.jobs then st.jobs[j].step else Handled
  }

  /** The work that a delivered event starts, by its kind. */
  function FirstStep(e: EventId, kind: EventKind): Step {
    match kind
    case PlanWakeup(_, _) => Waking(e)
    case ReplanRequested(_, _, _, _, _, _) => Replanning(e)
    case AggregationRequested => CheckingAggregation(e)
  }

  function AfterClaim(out: ClaimOutcome, wakeup: Option<EventId>): Step {
    match out
    case Claimed(s) => Executing(s)
    case Recover(s) => Recovering(s, wakeup)
    case _ => Handled
  }

  ghost function DoClaim(cfg: Config, st: Sys, j: JobId, ids: NewIds, id: EventId): Sys
    requires j in st.jobs && st.jobs[j].step.Claiming?
  {
    var c := st.jobs[j].step;
    var r := Claim(cfg, st.db, c.plan, c.wakeup, c.wantedExecution, c.wantedOperation, ids, id, st.now);
    if r.1.None? then Drop(st, j) else Put(st, r.0, j, AfterClaim(r.1.value, c.wakeup))
  }

  /** The result of a transaction: the job goes on, or an exception ends it. */
  function Continue<T>(st: Sys, j: JobId, r: (Db, Option<T>), step: Step): Sys
    requires j in st.jobs
  {
    if r.1.None? then Drop(st, j) else Put(st, r.0, j, step)
  }

  predicate HasSideEffect(cfg: Config, db: Db, s: Snapshot) {
    s.plan in db.plans && s.task in db.plans[s.plan].tasks && cfg.Of(db.plans[s.plan].tasks[s.task].capability).sideEffect
  }

  /** Failing without side effects settles the task; otherwise its compensation is made durable first. */
  function DoFail(cfg: Config, st: Sys, j: JobId, error: TaskError, id: EventId): Sys
    requires j in st.jobs && st.jobs[j].step.Executing?
  {
    var s := st.jobs[j].step.snapshot;
    if HasSideEffect(cfg, st.db, s) then Continue(st, j, Require(st.db, s, error, id, st.now), Recovering(s, None))
    else Continue(st, j, FailWithoutEffects(cfg, st.db, s, error, id, st.now), Handled)
  }

  function DoBegin(st: Sys, j: JobId): Sys
    requires j in st.jobs && st.jobs[j].step.Recovering?
  {
    var c := st.jobs[j].step;
    var r := Begin(st.db, c.snapshot, 0, st.now);
    Continue(st, j, r, if r.1.Some? then Compensating(c.snapshot, c.wakeup, r.1.value) else Handled)
  }

  ghost function DoPrepare(st: Sys, j: JobId, q: PlanId, leaseOver: bool, missed: bool): Sys
    requires j in st.jobs && st.jobs[j].step.Replanning? && st.jobs[j].step.event in st.db.outbox
    requires st.db.outbox[st.jobs[j].step.event].kind.ReplanRequested?
  {
    var e := st.jobs[j].step.event;
    var r := Prepare(st.db, e, st.db.outbox[e].kind, q, leaseOver, missed);
    if r.1.ReplanRaised? then Drop(st, j)
    else Put(st, r.0, j, if r.1.Prepared? then RunningPlanner else Handled)
  }

  function MarkEvent(db: Db, e: EventId, sent: bool): Db {
    if e !in db.outbox || db.outbox[e].status != EventPending then db
    else
      var event := db.outbox[e];
      db.(outbox := db.outbox[e :=
        if sent then event.(status := Published)
        else event.(attempts := event.attempts + 1,
                    status := if event.attempts + 1 >= MAX_PUBLISH_ATTEMPTS then DeadLetter else EventPending)])
  }

  predicate EventKnown(st: Sys, e: EventId) {
    e in st.db.outbox && st.db.outbox[e].availableAt <= st.now
  }

  predicate NewEvent(st: Sys, id: EventId) {
    id !in st.db.outbox
  }

  predicate NewJob(st: Sys, j: JobId) {
    j !in st.jobs
  }

  /** What the context module does with a turn: its selection, the failure of it, and a completion on request. */
  predicate ContextMove(a: TurnStatus, b: TurnStatus) {
    || (a == Routing && b in {ContextReady, TurnFailed})
    || (a in {ContextReady, Processing} && b == TurnCompleted)
  }

  /** Steps of the planner and of the user. */
  ghost function ExecPlanning(st: Sys, a: Action): Sys {
    match a
    case StartWorkflow(t, p, w) =>
      if p !in st.db.plans && !UsesWorkflow(st.db, w) then st.(db := CreatePlan(st.db, t, p, w).0) else st
    case DraftTask(p, t, u, row) =>
      if p in st.db.plans && u in st.db.plans[p].tasks then st else st.(db := CreateTask(st.db, p, t, u, row).0)
    case PublishPlan(p, t, id) =>
      if NewEvent(st, id) then st.(db := Finalize(st.db, p, t, id, st.now).0) else st
    case DeclareUnsupported(p, blank) => st.(db := MarkUnsupported(st.db, p, blank, st.now).0)
    case RetryPlanning(p, blank, id) =>
      if NewEvent(st, id) then st.(db := MarkRetryPending(st.db, p, blank, id, st.now).0) else st
    case AskUser(p, c) => st.(db := MarkNeedsClarification(st.db, p, c).0)
    case AnswerUser(t, c, blank, id) =>
      if NewEvent(st, id) then st.(db := Answer(st.db, t, c, blank, id, st.now).0) else st
    case OpenTurn(t, c) => st.(db := OpenNewTurn(st.db, t, c))
    case TurnBecomes(t, status) =>
      if t in st.db.turns && ContextMove(st.db.turns[t].status, status) then st.(db := SetTurn(st.db, t, status)) else st
    case _ => st
  }

  /** Steps of the outbox publisher and of the stream. */
  function ExecMessaging(st: Sys, a: Action): Sys {
    match a
    case Load(j, e) =>
      if NewJob(st, j) && EventKnown(st, e) && st.db.outbox[e].status == EventPending
      then st.(jobs := st.jobs[j := Job(None, Publishing(e))]) else st
    case Send(j, n, added, reported) =>
      if At(st, j).Publishing? && n !in st.stream then
        var e := st.jobs[j].step.event;
        var sent := if added then st.(stream := st.stream[n := e]) else st;
        Put(sent, st.db, j, Marking(e, added && reported))
      else st
    case Mark(j) =>
      if At(st, j).Marking?
      then Drop(st.(db := MarkEvent(st.db, st.jobs[j].step.event, st.jobs[j].step.sent)), j) else st
    case Deliver(j, n) =>
      if NewJob(st, j) && n in st.stream && n !in st.acked && EventKnown(st, st.stream[n])
      then st.(jobs := st.jobs[j := Job(Some(n), FirstStep(st.stream[n], st.db.outbox[st.stream[n]].kind))]) else st
    case Ack(j) =>
      if j in st.jobs && st.jobs[j].step.Handled? && st.jobs[j].entry.Some?
      then Drop(st.(acked := st.acked + {st.jobs[j].entry.value}), j) else st
    case CallRuntime(j, p) =>
      if NewJob(st, j) then st.(jobs := st.jobs[j := Job(None, Claiming(p, None, None, None))]) else st
    case Crash(j) => Drop(st, j)
    case Tick(d) => st.(now := st.now + d)
    case _ => st
  }

  /** Steps of a worker that handles a wakeup. */
  ghost function ExecRuntime(cfg: Config, st: Sys, a: Action): Sys {
    match a
    case CheckInbox(j) =>
      if At(st, j).Waking? && EventKnown(st, At(st, j).event) && st.db.outbox[At(st, j).event].kind.PlanWakeup? then
        var e := At(st, j).event;
        var kind := st.db.outbox[e].kind;
        if (TaskRuntime, e) in st.db.inbox then Put(st, st.db, j, Handled)
        else Put(st, st.db, j, Claiming(st.db.outbox[e].plan, Some(e), kind.execution, kind.operation))
      else st
    case ClaimFor(j, ids, id) =>
      if At(st, j).Claiming? && NewEvent(st, id)
         && (At(st, j).plan in st.db.plans ==> ids.execution !in st.db.plans[At(st, j).plan].executions)
      then DoClaim(cfg, st, j, ids, id) else st
    case Succeed(j, refs, id) =>
      if At(st, j).Executing? && NewEvent(st, id)
      then Continue(st, j, CompleteTask(st.db, At(st, j).snapshot, refs, id, st.now), Handled) else st
    case Fail(j, error, id) =>
      if At(st, j).Executing? && NewEvent(st, id) then DoFail(cfg, st, j, error, id) else st
    case BeginAttempt(j) =>
      if At(st, j).Recovering? then DoBegin(st, j) else st
    case AttemptFails(j, id) =>
      if At(st, j).Compensating? && At(st, j).attempt >= 1 && NewEvent(st, id) then
        var c := At(st, j);
        Continue(st, j, CompensationFailed(cfg, st.db, c.snapshot, c.attempt, c.wakeup, id, st.now), Handled)
      else st
    case AttemptSucceeds(j, id) =>
      if At(st, j).Compensating? && NewEvent(st, id) then
        var c := At(st, j);
        Continue(st, j, CompensationDone(cfg, st.db, c.snapshot, c.wakeup, id, st.now), Handled)
      else st
    case _ => st
  }

  /** Steps of a worker that handles a replan or an aggregation event. */
  ghost function ExecDispatch(st: Sys, a: Action): Sys {
    match a
    case PrepareRevision(j, q, leaseOver, missed) =>
      if At(st, j).Replanning? && EventKnown(st, At(st, j).event)
         && st.db.outbox[At(st, j).event].kind.ReplanRequested? && q !in st.db.plans
      then DoPrepare(st, j, q, leaseOver, missed) else st
    case PlannerReturns(j) =>
      if At(st, j).RunningPlanner? then Put(st, st.db, j, Handled) else st
    case CheckInbox(j) =>
      if At(st, j).CheckingAggregation? then
        var e := At(st, j).event;
        Put(st, st.db, j, if (RuntimeDispatcher, e) in st.db.inbox then Handled else Aggregating(e))
      else st
    case AggregateTurn(j) =>
      if At(st, j).Aggregating? && EventKnown(st, At(st, j).event)
         && st.db.outbox[At(st, j).event].plan in st.db.plans
         && st.db.plans[st.db.outbox[At(st, j).event].plan].turn in st.db.turns then
        var e := At(st, j).event;
        var t := st.db.plans[st.db.outbox[e].plan].turn;
        if st.db.turns[t].status !in {ContextReady, Processing, TurnCompleted} then Drop(st, j)
        else Put(st, SetTurn(st.db, t, TurnCompleted), j, Resolving(e))
      else st
    case ResolveQuestion(j) =>
      if At(st, j).Resolving? && EventKnown(st, At(st, j).event) then
        var e := At(st, j).event;
        Put(st, ResolveClarification(st.db, st.db.outbox[e].plan), j, Recording(e))
      else st
    case RecordAggregation(j) =>
      if At(st, j).Recording? then Put(st, RecordProcessed(st.db, At(st, j).event), j, Handled) else st
    case _ => st
  }

  predicate IsRuntimeAction(st: Sys, a: Action) {
    || a.ClaimFor? || a.Succeed? || a.Fail? || a.BeginAttempt? || a.AttemptFails? || a.AttemptSucceeds?
    || (a.CheckInbox? && At(st, a.job).Waking?)
  }

  predicate IsDispatchAction(a: Action) {
    || a.CheckInbox? || a.PrepareRevision? || a.PlannerReturns? || a.AggregateTurn? || a.ResolveQuestion?
    || a.RecordAggregation?
  }

  predicate IsMessagingAction(a: Action) {
    || a.Load? || a.Send? || a.Mark? || a.Deliver? || a.CallRuntime? || a.Ack? || a.Crash? || a.Tick?
  }

  ghost function Exec(cfg: Config, st: Sys, a: Action): Sys {
    if IsRuntimeAction(st, a) then ExecRuntime(cfg, st, a)
    else if IsDispatchAction(a) then ExecDispatch(st, a)
    else if IsMessagingAction(a) then ExecMessaging(st, a)
    else ExecPlanning(st, a)
  }

  ghost function Run(cfg: Config, st: Sys, actions: seq<Action>): Sys
    decreases |actions|
  {
    if actions == [] then st else Run(cfg, Exec(cfg, st, actions[0]), actions[1..])
  }

  const EMPTY_DB: Db := Db(map[], map[], {}, map[], map[])

  const INITIAL: Sys := Sys(EMPTY_DB, map[], {}, map[], 0)

  // ---------- The invariant of the system ----------

  ghost predicate InStream(st: Sys, e: EventId) {
    exists n :: n in st.stream && st.stream[n] == e
  }

  ghost predicate StreamOk(st: Sys) {
    && (forall n :: n in st.stream ==> EventKnown(st, st.stream[n]))
    && (forall n :: n in st.acked ==> n in st.stream && Done(st, st.stream[n]))
    && (forall e :: e in st.db.outbox && st.db.outbox[e].status == Published ==> InStream(st, e))
  }

  predicate Done(st: Sys, e: EventId) {
    e in st.db.outbox && Consumed(st.db, e)
  }

  /** An attempt to compensate that has neither succeeded nor been recorded as a failure. */
  ghost predicate AttemptPending(db: Db, s: Snapshot, attempt: nat) {
    && attempt >= 1 && s.plan in db.plans && s.execution in db.plans[s.plan].executions
    && var e := db.plans[s.plan].executions[s.execution];
       attempt <= e.compensationAttempts && forall f :: f in e.failures ==> f.attempt != attempt
  }

  predicate IsKind(st: Sys, e: EventId, c: Consumer) {
    EventKnown(st, e) && ConsumerOf(st.db.outbox[e].kind) == c
  }

  ghost predicate StepOk(st: Sys, step: Step) {
    match step
    case Waking(e) => IsKind(st, e, TaskRuntime)
    case Claiming(p, wakeup, x, o) => Handles(st.db, p, wakeup, x, o, st.now)
    case Executing(_) => true
    case Recovering(s, wakeup) => IsWakeupOf(st.db, s.plan, wakeup)
    case Compensating(s, wakeup, n) => IsWakeupOf(st.db, s.plan, wakeup) && AttemptPending(st.db, s, n)
    case Replanning(e) => IsKind(st, e, PlanningReplan)
    case RunningPlanner => true
    case CheckingAggregation(e) => IsKind(st, e, RuntimeDispatcher)
    case Aggregating(e) => IsKind(st, e, RuntimeDispatcher)
    case Resolving(e) => IsKind(st, e, RuntimeDispatcher)
    case Recording(e) => IsKind(st, e, RuntimeDispatcher)
    case Handled => true
    case Publishing(e) => EventKnown(st, e)
    case Marking(e, sent) => EventKnown(st, e) && (sent ==> InStream(st, e))
  }

  /** What the work of a job says about the event of its entry: consumed, or still being handled. */
  ghost predicate EntryOk(st: Sys, n: EntryId, step: Step) {
    && n in st.stream
    && match step
       case Waking(e) => e == st.stream[n]
       case Claiming(_, wakeup, _, _) => wakeup == Some(st.stream[n])
       case Executing(_) => Done(st, st.stream[n])
       case Recovering(_, wakeup) => wakeup == Some(st.stream[n]) || Done(st, st.stream[n])
       case Compensating(_, wakeup, _) => wakeup == Some(st.stream[n]) || Done(st, st.stream[n])
       case Replanning(e) => e == st.stream[n]
       case RunningPlanner => Done(st, st.stream[n])
       case CheckingAggregation(e) => e == st.stream[n]
       case Aggregating(e) => e == st.stream[n]
       case Resolving(e) => e == st.stream[n]
       case Recording(e) => e == st.stream[n]
       case Handled => Done(st, st.stream[n])
       case Publishing(_) => false
       case Marking(_, _) => false
  }

  ghost predicate JobOk(st: Sys, job: Job) {
    StepOk(st, job.step) && (job.entry.Some? ==> EntryOk(st, job.entry.value, job.step))
  }

  /** Two jobs never hold the same compensation attempt. */
  ghost predicate SameAttempt(a: Step, b: Step) {
    && a.Compensating? && b.Compensating? && a.attempt == b.attempt
    && a.snapshot.plan == b.snapshot.plan && a.snapshot.execution == b.snapshot.execution
  }

  ghost predicate JobsOk(st: Sys) {
    && (forall j {:trigger JobOk(st, st.jobs[j])} :: j in st.jobs ==> JobOk(st, st.jobs[j]))
    && (forall i, j {:trigger SameAttempt(st.jobs[i].step, st.jobs[j].step)} ::
          i in st.jobs && j in st.jobs && i != j ==> !SameAttempt(st.jobs[i].step, st.jobs[j].step))
  }

  ghost predicate SysInv(cfg: Config, st: Sys) {
    DbInv(cfg, st.db) && StreamOk(st) && JobsOk(st)
  }
}
