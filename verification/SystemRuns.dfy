/** The invariant holds in every state of every run, and what runs of the workflow engine guarantee. */
module SystemRuns {
  import opened Common
  import opened WorkflowRows
  import opened PlanLifecycle
  import opened PlanPreservation
  import opened WorkflowStore
  import opened WorkflowCommit
  import opened PlanningTransactions
  import opened ReplanTransactions
  import opened WorkflowSystem
  import opened SystemPreservation
  import opened SystemSteps

  // ---------- Planning steps ----------

  /** A transaction outside all jobs. */
  lemma OutsideKeeps(cfg: Config, a: Sys, db: Db)
    requires SysInv(cfg, a) && Preserved(cfg, a.db, db) && AttemptsStay(a.db, db, Handled)
    ensures SysInv(cfg, a.(db := db)) && SysEvolves(a, a.(db := db))
  {
    var b := a.(db := db);
    StreamStays(a, b);
    forall j | j in b.jobs ensures JobOk(b, b.jobs[j]) {
      assert JobOk(a, a.jobs[j]);
      assert !SameAttempt(a.jobs[j].step, Handled);
      JobStays(a, b, a.jobs[j]);
    }
    forall i, j | i in b.jobs && j in b.jobs && i != j ensures !SameAttempt(b.jobs[i].step, b.jobs[j].step) {
      assert !SameAttempt(a.jobs[i].step, a.jobs[j].step);
    }
  }

  ghost predicate ExecutionsStay(a: Db, b: Db) {
    forall p :: p in a.plans ==> p in b.plans && b.plans[p].executions == a.plans[p].executions
  }

  lemma DraftExecutions(st: Sys, a: Action)
    requires a.StartWorkflow? || a.DraftTask?
    ensures ExecutionsStay(st.db, ExecPlanning(st, a).db)
  {
  }

  lemma PublishExecutions(st: Sys, a: Action)
    requires a.PublishPlan?
    ensures ExecutionsStay(st.db, ExecPlanning(st, a).db)
  {
  }

  lemma EndedExecutions(st: Sys, a: Action)
    requires a.DeclareUnsupported? || a.RetryPlanning?
    ensures ExecutionsStay(st.db, ExecPlanning(st, a).db)
  {
  }

  lemma UserExecutions(st: Sys, a: Action)
    requires !(a.StartWorkflow? || a.DraftTask? || a.PublishPlan? || a.DeclareUnsupported? || a.RetryPlanning?)
    ensures ExecutionsStay(st.db, ExecPlanning(st, a).db)
  {
  }

  /** Steps of the planner and the user leave all executions alone. */
  lemma PlanningFailures(st: Sys, a: Action)
    ensures ExecutionsStay(st.db, ExecPlanning(st, a).db)
  {
    if a.StartWorkflow? || a.DraftTask? {
      DraftExecutions(st, a);
    } else if a.PublishPlan? {
      PublishExecutions(st, a);
    } else if a.DeclareUnsupported? || a.RetryPlanning? {
      EndedExecutions(st, a);
    } else {
      UserExecutions(st, a);
    }
  }

  lemma PlannerPreserves(cfg: Config, st: Sys, a: Action)
    requires DbInv(cfg, st.db) && (a.StartWorkflow? || a.DraftTask? || a.PublishPlan? || a.DeclareUnsupported? || a.RetryPlanning?)
    ensures Preserved(cfg, st.db, ExecPlanning(st, a).db)
  {
    PreservedRefl(cfg, st.db);
    match a
    case StartWorkflow(t, p, w) =>
      if p !in st.db.plans && !UsesWorkflow(st.db, w) {
        CreatePlanKeeps(cfg, st.db, t, p, w);
      }
    case DraftTask(p, t, u, row) =>
      if !(p in st.db.plans && u in st.db.plans[p].tasks) {
        CreateTaskKeeps(cfg, st.db, p, t, u, row);
      }
    case PublishPlan(p, t, id) =>
      if NewEvent(st, id) {
        FinalizeKeeps(cfg, st.db, p, t, id, st.now);
      }
    case DeclareUnsupported(p, blank) => MarkUnsupportedKeeps(cfg, st.db, p, blank, st.now);
    case RetryPlanning(p, blank, id) =>
      if NewEvent(st, id) {
        MarkRetryPendingKeeps(cfg, st.db, p, blank, id, st.now);
      }
  }

  lemma PlanningPreserves(cfg: Config, st: Sys, a: Action)
    requires DbInv(cfg, st.db)
    ensures Preserved(cfg, st.db, ExecPlanning(st, a).db)
  {
    PreservedRefl(cfg, st.db);
    match a
    case AskUser(p, c) => MarkNeedsClarificationKeeps(cfg, st.db, p, c);
    case AnswerUser(t, c, blank, id) =>
      if NewEvent(st, id) {
        AnswerKeeps(cfg, st.db, t, c, blank, id, st.now);
      }
    case OpenTurn(t, c) => OpenTurnKeeps(cfg, st.db, t, c);
    case TurnBecomes(t, status) =>
      if t in st.db.turns {
        TurnStatusKeeps(cfg, st.db, 0, t, status);
      }
    case _ =>
      if a.StartWorkflow? || a.DraftTask? || a.PublishPlan? || a.DeclareUnsupported? || a.RetryPlanning? {
        PlannerPreserves(cfg, st, a);
      }
  }

  lemma PlanningOnlyDb(st: Sys, a: Action)
    ensures ExecPlanning(st, a) == st.(db := ExecPlanning(st, a).db)
  {
  }

  lemma PlanningKeeps(cfg: Config, st: Sys, a: Action)
    requires SysInv(cfg, st)
    ensures SysInv(cfg, ExecPlanning(st, a)) && SysEvolves(st, ExecPlanning(st, a))
  {
    var b := ExecPlanning(st, a);
    PlanningOnlyDb(st, a);
    PlanningPreserves(cfg, st, a);
    PlanningFailures(st, a);
    AttemptsStaySame(st.db, b.db, Handled);
    OutsideKeeps(cfg, st, b.db);
  }

  // ---------- Messaging steps ----------

  lemma LoadKeeps(cfg: Config, a: Sys, j: JobId, e: EventId)
    requires SysInv(cfg, a) && NewJob(a, j) && EventKnown(a, e)
    ensures var b := a.(jobs := a.jobs[j := Job(None, Publishing(e))]);
            SysInv(cfg, b) && SysEvolves(a, b)
  {
    PreservedRefl(cfg, a.db);
    AttemptsStaySame(a.db, a.db, Handled);
    TransactionKeeps(cfg, a, a.(jobs := a.jobs[j := Job(None, Publishing(e))]), j);
  }

  lemma CallKeeps(cfg: Config, a: Sys, j: JobId, p: PlanId)
    requires SysInv(cfg, a) && NewJob(a, j)
    ensures var b := a.(jobs := a.jobs[j := Job(None, Claiming(p, None, None, None))]);
            SysInv(cfg, b) && SysEvolves(a, b)
  {
    PreservedRefl(cfg, a.db);
    AttemptsStaySame(a.db, a.db, Handled);
    TransactionKeeps(cfg, a, a.(jobs := a.jobs[j := Job(None, Claiming(p, None, None, None))]), j);
  }

  lemma DeliverKeeps(cfg: Config, a: Sys, j: JobId, n: EntryId)
    requires SysInv(cfg, a) && NewJob(a, j) && n in a.stream && EventKnown(a, a.stream[n])
    ensures var b := a.(jobs := a.jobs[j := Job(Some(n), FirstStep(a.stream[n], a.db.outbox[a.stream[n]].kind))]);
            SysInv(cfg, b) && SysEvolves(a, b)
  {
    PreservedRefl(cfg, a.db);
    AttemptsStaySame(a.db, a.db, Handled);
    TransactionKeeps(
      cfg, a, a.(jobs := a.jobs[j := Job(Some(n), FirstStep(a.stream[n], a.db.outbox[a.stream[n]].kind))]), j);
  }

  /** The stream, the acknowledgements, the clock or the state of one event has changed; no business row has. */
  lemma MessagingKeeps(cfg: Config, a: Sys, b: Sys, j: JobId)
    requires SysInv(cfg, a) && SysEvolves(a, b) && OnlyJob(a, b, j) && StreamOk(b) && DbInv(cfg, b.db)
    requires b.db.plans == a.db.plans
    requires j in b.jobs ==> JobOk(b, b.jobs[j]) && !b.jobs[j].step.Compensating?
    ensures SysInv(cfg, b)
  {
    forall p | p in a.db.plans ensures FailuresKept(a.db.plans[p], b.db.plans[p]) {
    }
    AttemptsStaySame(a.db, b.db, At(a, j));
    JobsStay(a, b, j);
  }

  lemma SendStream(a: Sys, n: EntryId, e: EventId)
    requires StreamOk(a) && n !in a.stream && EventKnown(a, e)
    ensures var b := a.(stream := a.stream[n := e]);
            StreamOk(b) && InStream(b, e)
  {
    var b := a.(stream := a.stream[n := e]);
    assert n in b.stream && b.stream[n] == e;
    forall f | f in b.db.outbox && b.db.outbox[f].status == Published ensures InStream(b, f) {
      assert InStream(a, f);
      var m :| m in a.stream && a.stream[m] == f;
      assert m in b.stream && b.stream[m] == f;
    }
    forall m | m in b.acked ensures m in b.stream && Done(b, b.stream[m]) {
      assert Done(a, a.stream[m]);
    }
  }

  lemma SendKeeps(cfg: Config, a: Sys, j: JobId, n: EntryId, added: bool, reported: bool)
    requires SysInv(cfg, a)
    ensures var b := ExecMessaging(a, Send(j, n, added, reported));
            SysInv(cfg, b) && SysEvolves(a, b)
  {
    PreservedRefl(cfg, a.db);
    if At(a, j).Publishing? && n !in a.stream {
      assert JobOk(a, a.jobs[j]);
      SentKeeps(cfg, a, j, n, a.jobs[j].step.event, added, reported);
    }
  }

  lemma SentKeeps(cfg: Config, a: Sys, j: JobId, n: EntryId, e: EventId, added: bool, reported: bool)
    requires SysInv(cfg, a) && j in a.jobs && a.jobs[j] == Job(a.jobs[j].entry, Publishing(e))
    requires n !in a.stream && JobOk(a, a.jobs[j])
    ensures var sent := if added then a.(stream := a.stream[n := e]) else a;
            var b := Put(sent, a.db, j, Marking(e, added && reported));
            SysInv(cfg, b) && SysEvolves(a, b)
  {
    PreservedRefl(cfg, a.db);
    var sent := if added then a.(stream := a.stream[n := e]) else a;
    if added {
      SendStream(a, n, e);
    }
    var b := Put(sent, a.db, j, Marking(e, added && reported));
    StreamSame(sent, b);
    if added {
      assert n in b.stream && b.stream[n] == e;
    }
    MessagingKeeps(cfg, a, b, j);
  }

  lemma StreamSame(a: Sys, b: Sys)
    requires StreamOk(a) && b.db == a.db && b.stream == a.stream && b.acked == a.acked && b.now >= a.now
    ensures StreamOk(b)
  {
    forall f | f in b.db.outbox && b.db.outbox[f].status == Published ensures InStream(b, f) {
      assert InStream(a, f);
      var m :| m in a.stream && a.stream[m] == f;
      assert m in b.stream && b.stream[m] == f;
    }
    forall m | m in b.acked ensures m in b.stream && Done(b, b.stream[m]) {
      assert Done(a, a.stream[m]);
    }
  }

  lemma AckKeeps(cfg: Config, a: Sys, j: JobId)
    requires SysInv(cfg, a)
    ensures SysInv(cfg, ExecMessaging(a, Ack(j))) && SysEvolves(a, ExecMessaging(a, Ack(j)))
  {
    PreservedRefl(cfg, a.db);
    if j in a.jobs && a.jobs[j].step.Handled? && a.jobs[j].entry.Some? {
      assert JobOk(a, a.jobs[j]);
      var n := a.jobs[j].entry.value;
      var b := Drop(a.(acked := a.acked + {n}), j);
      assert StreamOk(b) by { AckStream(a, b, n); }
      MessagingKeeps(cfg, a, b, j);
    }
  }

  lemma AckStream(a: Sys, b: Sys, n: EntryId)
    requires StreamOk(a) && n in a.stream && Done(a, a.stream[n])
    requires b.db == a.db && b.stream == a.stream && b.acked == a.acked + {n} && b.now == a.now
    ensures StreamOk(b)
  {
    var c := a.(acked := a.acked + {n});
    forall m | m in c.acked ensures m in c.stream && Done(c, c.stream[m]) {
      assert m != n ==> Done(a, a.stream[m]);
    }
    forall f | f in c.db.outbox && c.db.outbox[f].status == Published ensures InStream(c, f) {
      assert InStream(a, f);
      var m :| m in a.stream && a.stream[m] == f;
      assert m in c.stream && c.stream[m] == f;
    }
    StreamSame(c, b);
  }

  lemma TickKeeps(cfg: Config, a: Sys, d: nat)
    requires SysInv(cfg, a)
    ensures SysInv(cfg, ExecMessaging(a, Tick(d))) && SysEvolves(a, ExecMessaging(a, Tick(d)))
  {
    PreservedRefl(cfg, a.db);
    var b := a.(now := a.now + d);
    StreamSame(a, b);
    forall j | j in b.jobs ensures JobOk(b, b.jobs[j]) {
      assert JobOk(a, a.jobs[j]);
      JobStays(a, b, a.jobs[j]);
    }
    forall i, j | i in b.jobs && j in b.jobs && i != j ensures !SameAttempt(b.jobs[i].step, b.jobs[j].step) {
      assert !SameAttempt(a.jobs[i].step, a.jobs[j].step);
    }
  }

  // ---------- Marking an event ----------

  /** Only the delivery state of event e differs. */
  ghost predicate Remarked(a: Db, b: Db, e: EventId) {
    && b.plans == a.plans && b.inbox == a.inbox && b.turns == a.turns && b.clarifications == a.clarifications
    && b.outbox.Keys == a.outbox.Keys
    && (forall f :: f in a.outbox ==> EventEvolves(a.outbox[f], b.outbox[f]) && (f != e ==> b.outbox[f] == a.outbox[f]))
  }

  lemma RemarkDriven(cfg: Config, a: Db, b: Db, e: EventId, p: PlanId)
    requires Remarked(a, b, e) && p in a.plans && Driven(cfg, a, p)
    ensures Driven(cfg, b, p)
  {
    var rec := a.plans[p];
    if HasPlain(a, p) {
      var d :| IsPlain(a, p, d);
      assert IsPlain(b, p, d);
    }
    if HasReplan(a, p) {
      var d :| IsReplan(a, p, d);
      assert IsReplan(b, p, d);
    }
    if HasAggregation(a, p) {
      var d :| IsAggregation(a, p, d);
      assert IsAggregation(b, p, d);
    }
    forall x | x in rec.executions ensures ExecutionDriven(cfg, b, p, x) {
      RemarkExecution(cfg, a, b, e, p, x);
    }
  }

  lemma RemarkExecution(cfg: Config, a: Db, b: Db, e: EventId, p: PlanId, x: ExecutionId)
    requires Remarked(a, b, e) && p in a.plans && x in a.plans[p].executions && ExecutionDriven(cfg, a, p, x)
    ensures ExecutionDriven(cfg, b, p, x)
  {
    var rec, row := a.plans[p], a.plans[p].executions[x];
    if row.status == ExecRunning && row.task in rec.tasks {
      var at := LeaseEnd(cfg, rec.tasks[row.task]);
      var d :| IsPlainAfter(a, p, at, d);
      assert IsPlainAfter(b, p, at, d);
    }
    if row.status == CompensationRequired {
      var d :| IsMatching(a, p, x, row.operation, d);
      assert IsMatching(b, p, x, row.operation, d);
    }
  }

  lemma RemarkTables(a: Db, b: Db, e: EventId)
    requires Remarked(a, b, e) && RevisionsOk(a) && EventsOk(a) && ClaimsOk(a) && ClarificationsOk(a)
    ensures RevisionsOk(b) && EventsOk(b) && ClaimsOk(b) && ClarificationsOk(b)
  {
    SideRevisionsSame(a, b);
    forall f | f in b.outbox ensures EventOk(b, f) {
      assert EventOk(a, f);
    }
    forall q, x, f ensures ClaimedFor(b, q, x, f) <==> ClaimedFor(a, q, x, f) {
    }
    forall t | t in b.clarifications ensures ClarificationOk(b, t) {
      assert ClarificationOk(a, t);
    }
  }

  lemma RemarkKeeps(cfg: Config, a: Db, b: Db, e: EventId)
    requires DbInv(cfg, a) && Remarked(a, b, e)
    ensures DbInv(cfg, b) && DbEvolves(a, b)
  {
    RemarkTables(a, b, e);
    forall p | p in b.plans ensures Driven(cfg, b, p) {
      assert Driven(cfg, a, p);
      RemarkDriven(cfg, a, b, e, p);
    }
    forall p | p in b.plans ensures PlanInv(cfg, b.plans[p]) {
      assert PlanInv(cfg, a.plans[p]);
    }
    forall p ensures PlanEvolves(a, b, p) {
      if p in a.plans {
        EvolvesRefl(a.plans[p]);
      }
    }
  }

  lemma MarkStream(a: Sys, b: Sys, e: EventId, sent: bool)
    requires StreamOk(a) && b.db == MarkEvent(a.db, e, sent) && b.stream == a.stream && b.acked == a.acked && b.now == a.now
    requires sent ==> InStream(a, e)
    ensures StreamOk(b)
  {
    forall f | f in b.db.outbox && b.db.outbox[f].status == Published ensures InStream(b, f) {
      assert InStream(a, f);
      var m :| m in a.stream && a.stream[m] == f;
      assert m in b.stream && b.stream[m] == f;
    }
    forall m | m in b.acked ensures m in b.stream && Done(b, b.stream[m]) {
      assert Done(a, a.stream[m]);
    }
  }

  lemma MarkKeeps(cfg: Config, a: Sys, j: JobId)
    requires SysInv(cfg, a)
    ensures SysInv(cfg, ExecMessaging(a, Mark(j))) && SysEvolves(a, ExecMessaging(a, Mark(j)))
  {
    PreservedRefl(cfg, a.db);
    if At(a, j).Marking? {
      assert JobOk(a, a.jobs[j]);
      MarkedKeeps(cfg, a, j, a.jobs[j].step.event, a.jobs[j].step.sent);
    }
  }

  lemma MarkedKeeps(cfg: Config, a: Sys, j: JobId, e: EventId, sent: bool)
    requires SysInv(cfg, a) && j in a.jobs && (sent ==> InStream(a, e))
    ensures var b := Drop(a.(db := MarkEvent(a.db, e, sent)), j);
            SysInv(cfg, b) && SysEvolves(a, b)
  {
    var b := Drop(a.(db := MarkEvent(a.db, e, sent)), j);
    assert Remarked(a.db, b.db, e);
    RemarkKeeps(cfg, a.db, b.db, e);
    MarkStream(a, b, e, sent);
    MessagingKeeps(cfg, a, b, j);
  }

  // ---------- Every action, every run ----------

  lemma {:induction false} RunSnoc(cfg: Config, st: Sys, actions: seq<Action>, a: Action)
    ensures Run(cfg, st, actions + [a]) == Exec(cfg, Run(cfg, st, actions), a)
    decreases |actions|
  {
    if actions == [] {
      assert [a][1..] == [];
      assert [] + [a] == [a];
    } else {
      assert (actions + [a])[0] == actions[0] && (actions + [a])[1..] == actions[1..] + [a];
      RunSnoc(cfg, Exec(cfg, st, actions[0]), actions[1..], a);
    }
  }

  lemma {:induction false} RunAppend(cfg: Config, st: Sys, a: seq<Action>, b: seq<Action>)
    ensures Run(cfg, st, a + b) == Run(cfg, Run(cfg, st, a), b)
    decreases |a|
  {
    if a == [] {
      assert a + b == b;
    } else {
      assert (a + b)[0] == a[0] && (a + b)[1..] == a[1..] + b;
      RunAppend(cfg, Exec(cfg, st, a[0]), a[1..], b);
    }
  }

  /** The state after the k-th action. */
  lemma RunPrefix(cfg: Config, st: Sys, actions: seq<Action>, k: nat)
    requires k < |actions|
    ensures Run(cfg, st, actions[..k + 1]) == Exec(cfg, Run(cfg, st, actions[..k]), actions[k])
  {
    assert actions[..k + 1] == actions[..k] + [actions[k]];
    RunSnoc(cfg, st, actions[..k], actions[k]);
  }

  lemma ExecutionActionKeeps(cfg: Config, st: Sys, a: Action)
    requires SysInv(cfg, st) && (a.ClaimFor? || a.Succeed? || a.Fail?)
    ensures SysInv(cfg, ExecRuntime(cfg, st, a)) && SysEvolves(st, ExecRuntime(cfg, st, a))
  {
    PreservedRefl(cfg, st.db);
    match a
    case ClaimFor(j, ids, id) =>
      if At(st, j).Claiming? && NewEvent(st, id)
         && (At(st, j).plan in st.db.plans ==> ids.execution !in st.db.plans[At(st, j).plan].executions) {
        ClaimKeepsSys(cfg, st, j, ids, id);
      }
    case Succeed(j, refs, id) =>
      if At(st, j).Executing? && NewEvent(st, id) {
        SucceedKeeps(cfg, st, j, refs, id);
      }
    case Fail(j, error, id) =>
      if At(st, j).Executing? && NewEvent(st, id) {
        FailKeeps(cfg, st, j, error, id);
      }
  }

  lemma CompensationActionKeeps(cfg: Config, st: Sys, a: Action)
    requires SysInv(cfg, st) && (a.BeginAttempt? || a.AttemptFails? || a.AttemptSucceeds?)
    ensures SysInv(cfg, ExecRuntime(cfg, st, a)) && SysEvolves(st, ExecRuntime(cfg, st, a))
  {
    PreservedRefl(cfg, st.db);
    match a
    case BeginAttempt(j) =>
      if At(st, j).Recovering? {
        BeginKeepsSys(cfg, st, j);
      }
    case AttemptFails(j, id) =>
      if At(st, j).Compensating? && At(st, j).attempt >= 1 && NewEvent(st, id) {
        AttemptFailsKeeps(cfg, st, j, id);
      }
    case AttemptSucceeds(j, id) =>
      if At(st, j).Compensating? && NewEvent(st, id) {
        AttemptSucceedsKeeps(cfg, st, j, id);
      }
  }

  lemma RuntimeKeeps(cfg: Config, st: Sys, a: Action)
    requires SysInv(cfg, st) && IsRuntimeAction(st, a)
    ensures SysInv(cfg, ExecRuntime(cfg, st, a)) && SysEvolves(st, ExecRuntime(cfg, st, a))
  {
    if a.CheckInbox? {
      CheckWakeupKeeps(cfg, st, a.job);
    } else if a.ClaimFor? || a.Succeed? || a.Fail? {
      ExecutionActionKeeps(cfg, st, a);
    } else {
      CompensationActionKeeps(cfg, st, a);
    }
  }

  lemma DispatchKeeps(cfg: Config, st: Sys, a: Action)
    requires SysInv(cfg, st)
    ensures SysInv(cfg, ExecDispatch(st, a)) && SysEvolves(st, ExecDispatch(st, a))
  {
    PreservedRefl(cfg, st.db);
    match a
    case PrepareRevision(j, q, leaseOver, missed) =>
      if At(st, j).Replanning? && EventKnown(st, At(st, j).event)
         && st.db.outbox[At(st, j).event].kind.ReplanRequested? && q !in st.db.plans {
        PrepareKeepsSys(cfg, st, j, q, leaseOver, missed);
      }
    case PlannerReturns(j) => PlannerReturnsKeeps(cfg, st, j);
    case CheckInbox(j) => CheckAggregationKeeps(cfg, st, j);
    case AggregateTurn(j) => AggregateKeeps(cfg, st, j);
    case ResolveQuestion(j) => ResolveKeepsSys(cfg, st, j);
    case RecordAggregation(j) => RecordKeepsSys(cfg, st, j);
    case _ =>
  }

  lemma PlanningStep(cfg: Config, st: Sys, a: Action)
    requires !IsRuntimeAction(st, a) && !IsDispatchAction(a) && !IsMessagingAction(a)
    ensures Exec(cfg, st, a) == ExecPlanning(st, a)
  {
  }

  lemma StartKeepsSys(cfg: Config, st: Sys, a: Action)
    requires SysInv(cfg, st) && (a.Load? || a.Deliver? || a.CallRuntime?)
    ensures SysInv(cfg, ExecMessaging(st, a)) && SysEvolves(st, ExecMessaging(st, a))
  {
    PreservedRefl(cfg, st.db);
    match a
    case Load(j, e) =>
      if NewJob(st, j) && EventKnown(st, e) {
        LoadKeeps(cfg, st, j, e);
      }
    case Deliver(j, n) =>
      if NewJob(st, j) && n in st.stream && n !in st.acked && EventKnown(st, st.stream[n]) {
        DeliverKeeps(cfg, st, j, n);
      }
    case CallRuntime(j, p) =>
      if NewJob(st, j) {
        CallKeeps(cfg, st, j, p);
      }
  }

  lemma StreamActionKeeps(cfg: Config, st: Sys, a: Action)
    requires SysInv(cfg, st) && IsMessagingAction(a)
    ensures SysInv(cfg, ExecMessaging(st, a)) && SysEvolves(st, ExecMessaging(st, a))
  {
    if a.Send? {
      SendKeeps(cfg, st, a.job, a.entry, a.added, a.reported);
    } else if a.Mark? {
      MarkKeeps(cfg, st, a.job);
    } else if a.Ack? {
      AckKeeps(cfg, st, a.job);
    } else if a.Crash? {
      DropKeeps(cfg, st, a.job);
    } else if a.Tick? {
      TickKeeps(cfg, st, a.seconds);
    } else {
      StartKeepsSys(cfg, st, a);
    }
  }

  lemma ExecKeeps(cfg: Config, st: Sys, a: Action)
    requires SysInv(cfg, st)
    ensures SysInv(cfg, Exec(cfg, st, a)) && SysEvolves(st, Exec(cfg, st, a))
  {
    if IsRuntimeAction(st, a) {
      RuntimeKeeps(cfg, st, a);
    } else if IsDispatchAction(a) {
      DispatchKeeps(cfg, st, a);
    } else if IsMessagingAction(a) {
      StreamActionKeeps(cfg, st, a);
    } else {
      PlanningKeeps(cfg, st, a);
    }
  }

  lemma SysEvolvesRefl(cfg: Config, st: Sys)
    requires SysInv(cfg, st)
    ensures SysEvolves(st, st)
  {
    PreservedRefl(cfg, st.db);
  }

  lemma SysEvolvesTrans(a: Sys, b: Sys, c: Sys)
    requires SysEvolves(a, b) && SysEvolves(b, c)
    ensures SysEvolves(a, c)
  {
    DbEvolvesTrans(a.db, b.db, c.db);
  }

  /** From a consistent state every run leads to consistent states and never goes backwards. */
  lemma {:induction false} RunKeeps(cfg: Config, st: Sys, actions: seq<Action>)
    requires SysInv(cfg, st)
    ensures SysInv(cfg, Run(cfg, st, actions)) && SysEvolves(st, Run(cfg, st, actions))
    decreases |actions|
  {
    if actions == [] {
      SysEvolvesRefl(cfg, st);
    } else {
      var next := Exec(cfg, st, actions[0]);
      ExecKeeps(cfg, st, actions[0]);
      RunKeeps(cfg, next, actions[1..]);
      SysEvolvesTrans(st, next, Run(cfg, next, actions[1..]));
    }
  }

  lemma InitialInv(cfg: Config)
    ensures SysInv(cfg, INITIAL)
  {
  }

  /** Every reachable state satisfies the invariant. */
  lemma Reachable(cfg: Config, actions: seq<Action>)
    ensures SysInv(cfg, Run(cfg, INITIAL, actions))
  {
    InitialInv(cfg);
    RunKeeps(cfg, INITIAL, actions);
  }
}
