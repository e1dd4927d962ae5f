/**
  Runs of the engine that get somewhere: a published plan, a completed one, and a locked
  compensation. They show that the theorems about runs speak of states that exist.
 */
module EngineWitness {
  import opened Common
  import opened PlanDag
  import opened WorkflowRows
  import opened PlanLifecycle
  import opened PlanPublication
  import opened WorkflowStore
  import opened RuntimeTransactions
  import opened PlanningTransactions
  import opened WorkflowSystem
  import opened SystemRuns

  ghost predicate IsReachable(cfg: Config, st: Sys) {
    exists actions :: Run(cfg, INITIAL, actions) == st
  }

  /** b is one step after a. */
  ghost predicate Steps(cfg: Config, a: Sys, b: Sys) {
    exists x :: Exec(cfg, a, x) == b
  }

  lemma Reached(cfg: Config, a: Sys, b: Sys)
    requires IsReachable(cfg, a) && Steps(cfg, a, b)
    ensures IsReachable(cfg, b)
  {
    var actions :| Run(cfg, INITIAL, actions) == a;
    var x :| Exec(cfg, a, x) == b;
    RunSnoc(cfg, INITIAL, actions, x);
    assert Run(cfg, INITIAL, actions + [x]) == b;
  }

  lemma PlanningStep(cfg: Config, a: Sys, x: Action)
    requires !IsRuntimeAction(a, x) && !IsDispatchAction(x) && !IsMessagingAction(x)
    ensures Steps(cfg, a, ExecPlanning(a, x))
  {
    assert Exec(cfg, a, x) == ExecPlanning(a, x);
  }

  lemma RuntimeStep(cfg: Config, a: Sys, x: Action)
    requires IsRuntimeAction(a, x)
    ensures Steps(cfg, a, ExecRuntime(cfg, a, x))
  {
    assert Exec(cfg, a, x) == ExecRuntime(cfg, a, x);
  }

  lemma MessagingStep(cfg: Config, a: Sys, x: Action)
    requires !IsRuntimeAction(a, x) && !IsDispatchAction(x) && IsMessagingAction(x)
    ensures Steps(cfg, a, ExecMessaging(a, x))
  {
    assert Exec(cfg, a, x) == ExecMessaging(a, x);
  }

  // ---------- A plan with one task ----------

  const ONLY_TASK := NewTask("only", ProcessDocument, [], 1)

  const DRAFTED: Task := Task("only", ProcessDocument, [], 1, TaskDraft, 0, 3, 0)

  /** Plan 1 of turn 1, with task 1. */
  function OneTask(status: PlanStatus, current: Option<TaskId>, task: Task, executions: map<ExecutionId, Execution>): PlanRec {
    PlanRec(1, 1, None, 1, status, current, map[1 := task], {}, executions)
  }

  /** The database holds that plan; event ids from k on are free; no event has been consumed. */
  predicate Holds(st: Sys, rec: PlanRec, k: int) {
    && st.db.plans == map[1 := rec] && 1 in st.db.turns && rec.turn == 1 && st.db.inbox == {}
    && forall e :: e in st.db.outbox ==> e < k
  }

  /** Before planning: the turn has its context, there is no plan yet. */
  const TURN: Sys := INITIAL.(db := EMPTY_DB.(turns := map[1 := Turn(1, ContextReady, false)]))

  lemma TurnIsOpened(cfg: Config) returns (a: Sys)
    ensures Steps(cfg, INITIAL, a) && a == INITIAL.(db := EMPTY_DB.(turns := map[1 := Turn(1, Routing, false)]))
  {
    a := ExecPlanning(INITIAL, OpenTurn(1, 1));
    PlanningStep(cfg, INITIAL, OpenTurn(1, 1));
  }

  lemma TurnGetsContext(cfg: Config, a: Sys)
    requires a == INITIAL.(db := EMPTY_DB.(turns := map[1 := Turn(1, Routing, false)]))
    ensures Steps(cfg, a, TURN)
  {
    PlanningStep(cfg, a, TurnBecomes(1, ContextReady));
    assert ExecPlanning(a, TurnBecomes(1, ContextReady)) == TURN;
  }

  lemma PlanIsCreated(cfg: Config) returns (c: Sys)
    ensures Steps(cfg, TURN, c) && Holds(c, NewPlan(1, 1, None, 1), 1)
    ensures c.db.turns == TURN.db.turns && c.jobs == map[]
  {
    c := ExecPlanning(TURN, StartWorkflow(1, 1, 1));
    PlanningStep(cfg, TURN, StartWorkflow(1, 1, 1));
  }

  lemma DraftFits(rec: PlanRec, task: NewTask)
    requires (forall t :: t in rec.tasks ==> rec.tasks[t].status != TaskDraft) && task.dependsOn == []
    ensures DraftRejected(rec, task).None? && DraftRow(task).dependsOn == []
  {
    var drafts := set t | t in rec.tasks && rec.tasks[t].status == TaskDraft;
    assert forall t :: t !in drafts;
    assert drafts == {};
    assert Dedup(task.dependsOn) == [];
  }

  lemma DraftIsAdded(cfg: Config, c: Sys) returns (st: Sys)
    requires Holds(c, NewPlan(1, 1, None, 1), 1)
    ensures Steps(cfg, c, st) && Holds(st, OneTask(Planning, None, DRAFTED, map[]), 1)
    ensures st.db.turns == c.db.turns && st.jobs == c.jobs
  {
    st := ExecPlanning(c, DraftTask(1, 1, 1, ONLY_TASK));
    PlanningStep(cfg, c, DraftTask(1, 1, 1, ONLY_TASK));
    DraftFits(c.db.plans[1], ONLY_TASK);
  }

  lemma Drafted(cfg: Config) returns (st: Sys)
    ensures IsReachable(cfg, st) && Holds(st, OneTask(Planning, None, DRAFTED, map[]), 1)
    ensures st.db.turns[1].status == ContextReady && st.jobs == map[]
  {
    assert Run(cfg, INITIAL, []) == INITIAL;
    var a := TurnIsOpened(cfg);
    Reached(cfg, INITIAL, a);
    TurnGetsContext(cfg, a);
    Reached(cfg, a, TURN);
    var c := PlanIsCreated(cfg);
    Reached(cfg, TURN, c);
    st := DraftIsAdded(cfg, c);
    Reached(cfg, c, st);
  }

  // ---------- Publication ----------

  lemma OnlyOne(l: seq<TaskId>)
    requires Distinct(l) && forall t :: t in l <==> t == 1
    ensures l == [1]
  {
    ElementsSize(l);
    assert Elements(l) == {1};
    assert l[0] in l;
  }

  lemma OneDraft(rec: PlanRec)
    requires rec.tasks == map[1 := DRAFTED]
    ensures DraftIds(rec) == [1] && Contiguous(rec, [1]) && EdgeSet(rec, [1]) == {}
    ensures DagVerdict(DraftsOf(rec, [1])) == None
  {
    OnlyOne(DraftIds(rec));
    var drafts := DraftsOf(rec, [1]);
    assert drafts == [Draft(1, "only", [])];
    NoErrorInOneDraft(drafts);
  }

  lemma LongPathHasEdge(g: Graph, p: seq<Ref>)
    ensures IsPath(g, p) && |p| > 1 ==> exists r :: r in g && g[r] != []
  {
    if IsPath(g, p) && |p| > 1 {
      assert p[1] in g[p[0]];
    }
  }

  lemma NoErrorInOneDraft(drafts: seq<Draft>)
    requires drafts == [Draft(1, "only", [])]
    ensures DagVerdict(drafts) == None
  {
    assert DraftError(drafts, drafts[0]) == None;
    var g := GraphOf(drafts);
    forall r | r in g ensures g[r] == [] {
      assert KnownRef(drafts, r);
    }
    forall p ensures IsPath(g, p) ==> |p| == 1 {
      LongPathHasEdge(g, p);
    }
    assert !HasCycle(g) && !HasLongPath(g);
  }

  const PUBLISHED: Task := DRAFTED.(status := Pending)

  lemma PublishEffect(db: Db, now: int)
    requires db.plans == map[1 := OneTask(Planning, None, DRAFTED, map[])]
    requires 1 in db.turns && db.turns[1].status == ContextReady
    ensures var r := Finalize(db, 1, 1, 1, now);
            && r.1 == None && r.0.plans == map[1 := OneTask(Ready, None, PUBLISHED, map[])]
            && 1 in r.0.turns && r.0.inbox == db.inbox && r.0.outbox.Keys == db.outbox.Keys + {1}
  {
    OneDraft(db.plans[1]);
    assert Publish(db.plans[1]) == OneTask(Ready, None, PUBLISHED, map[]);
  }

  lemma PlanIsPublished(cfg: Config, a: Sys) returns (st: Sys)
    requires Holds(a, OneTask(Planning, None, DRAFTED, map[]), 1) && a.db.turns[1].status == ContextReady
    ensures Steps(cfg, a, st) && Holds(st, OneTask(Ready, None, PUBLISHED, map[]), 2) && st.jobs == a.jobs
  {
    st := a.(db := Finalize(a.db, 1, 1, 1, a.now).0);
    PublishStep(cfg, a);
    PublishEffect(a.db, a.now);
  }

  lemma PublishStep(cfg: Config, a: Sys)
    requires 1 !in a.db.outbox
    ensures Steps(cfg, a, a.(db := Finalize(a.db, 1, 1, 1, a.now).0))
  {
    PlanningStep(cfg, a, PublishPlan(1, 1, 1));
  }

  /** A published plan is reachable. */
  lemma ReadyIsReachable(cfg: Config) returns (st: Sys)
    ensures IsReachable(cfg, st) && Holds(st, OneTask(Ready, None, PUBLISHED, map[]), 2) && st.jobs == map[]
  {
    var a := Drafted(cfg);
    st := PlanIsPublished(cfg, a);
    Reached(cfg, a, st);
  }

  // ---------- Execution ----------

  const IDS := NewIds(1, 1, 1)

  function Started(cfg: Config, now: int): Task {
    PUBLISHED.(attemptCount := 1, maxAttempts := cfg.process.maxAttempts, status := TaskRunning, startedAt := now)
  }

  const FIRST: Execution := Execution(1, 1, ExecRunning, 1, 1, "", false, false, [], 0, None, [])

  const HELD := Snapshot(1, 1, 1, 1, 1, 1)

  lemma OnlyTaskIsNext(rec: PlanRec)
    requires rec.tasks == map[1 := PUBLISHED] && rec.deps == {}
    ensures Requeue(rec) == rec && NextRunnable(rec) == Some(1)
  {
    assert Requeue(rec).tasks == rec.tasks;
    assert FirstRunnable(rec, 1);
  }

  lemma RuntimeIsCalled(cfg: Config, a: Sys) returns (b: Sys)
    requires a.jobs == map[]
    ensures Steps(cfg, a, b) && b == a.(jobs := map[1 := Job(None, Claiming(1, None, None, None))])
  {
    b := ExecMessaging(a, CallRuntime(1, 1));
    MessagingStep(cfg, a, CallRuntime(1, 1));
  }

  lemma ClaimEffect(cfg: Config, db: Db, now: int)
    requires db.plans == map[1 := OneTask(Ready, None, PUBLISHED, map[])] && 1 in db.turns
    ensures var r := Claim(cfg, db, 1, None, None, None, IDS, 2, now);
            && r.1 == Some(Claimed(HELD)) && r.0.turns == db.turns && r.0.inbox == db.inbox
            && r.0.plans == map[1 := OneTask(Running, Some(1), Started(cfg, now), map[1 := FIRST])]
            && r.0.outbox.Keys == db.outbox.Keys + {2}
  {
    var rec := db.plans[1];
    OnlyTaskIsNext(rec);
    assert StartAttempt(cfg, rec, 1, IDS, None, now) == OneTask(Running, Some(1), Started(cfg, now), map[1 := FIRST]);
  }

  lemma TaskIsClaimed(cfg: Config, b: Sys) returns (st: Sys)
    requires Holds(b, OneTask(Ready, None, PUBLISHED, map[]), 2)
    requires b.jobs == map[1 := Job(None, Claiming(1, None, None, None))]
    ensures Steps(cfg, b, st) && Holds(st, OneTask(Running, Some(1), Started(cfg, st.now), map[1 := FIRST]), 3)
    ensures st.jobs == map[1 := Job(None, Executing(HELD))]
  {
    var db := Claim(cfg, b.db, 1, None, None, None, IDS, 2, b.now).0;
    st := Put(b, db, 1, Executing(HELD));
    ClaimHolds(cfg, b, db);
    ClaimEffect(cfg, b.db, b.now);
    ClaimStep(cfg, b, IDS, 2, Claimed(HELD));
  }

  lemma ClaimHolds(cfg: Config, b: Sys, db: Db)
    requires Holds(b, OneTask(Ready, None, PUBLISHED, map[]), 2)
    requires b.jobs == map[1 := Job(None, Claiming(1, None, None, None))]
    requires db == Claim(cfg, b.db, 1, None, None, None, IDS, 2, b.now).0
    ensures var st := Put(b, db, 1, Executing(HELD));
            && Holds(st, OneTask(Running, Some(1), Started(cfg, b.now), map[1 := FIRST]), 3)
            && st.now == b.now && st.jobs == map[1 := Job(None, Executing(HELD))]
  {
    ClaimEffect(cfg, b.db, b.now);
    forall e | e in db.outbox ensures e < 3 {
      assert e in b.db.outbox.Keys + {2};
    }
  }

  lemma ClaimStep(cfg: Config, b: Sys, ids: NewIds, id: EventId, out: ClaimOutcome)
    requires id !in b.db.outbox && 1 in b.jobs && b.jobs[1] == Job(None, Claiming(1, None, None, None))
    requires 1 in b.db.plans ==> ids.execution !in b.db.plans[1].executions
    requires Claim(cfg, b.db, 1, None, None, None, ids, id, b.now).1 == Some(out)
    ensures Steps(cfg, b, Put(b, Claim(cfg, b.db, 1, None, None, None, ids, id, b.now).0, 1, AfterClaim(out, None)))
  {
    var x := ClaimFor(1, ids, id);
    RuntimeStep(cfg, b, x);
    assert ExecRuntime(cfg, b, x) == DoClaim(cfg, b, 1, ids, id);
  }

  /** A worker calls the runtime and gets the task. */
  lemma Working(cfg: Config) returns (st: Sys)
    ensures IsReachable(cfg, st)
    ensures Holds(st, OneTask(Running, Some(1), Started(cfg, st.now), map[1 := FIRST]), 3)
    ensures st.jobs == map[1 := Job(None, Executing(HELD))]
  {
    var a := ReadyIsReachable(cfg);
    var b := RuntimeIsCalled(cfg, a);
    Reached(cfg, a, b);
    st := TaskIsClaimed(cfg, b);
    Reached(cfg, b, st);
  }

  lemma SucceedCompletes(rec: PlanRec, now: int)
    requires rec.current == Some(1) && rec.tasks.Keys == {1} && rec.tasks[1].status == TaskRunning
    requires rec.executions == map[1 := FIRST]
    ensures Complete(rec, HELD, [], now).Committed? && Complete(rec, HELD, [], now).rec.status == Completed
    ensures Complete(rec, HELD, [], now).rec.turn == rec.turn
  {
    var row := FIRST.(status := ExecSucceeded, resourceRefs := Dedup<string>([]));
    var done := Settle(rec, 1, 1, Succeeded, row);
    assert AllSucceeded(done) && !SomeTaskIn(done, {Pending, RetryWait});
  }

  lemma TaskIsDone(cfg: Config, a: Sys) returns (st: Sys)
    requires Holds(a, OneTask(Running, Some(1), Started(cfg, a.now), map[1 := FIRST]), 3)
    requires a.jobs == map[1 := Job(None, Executing(HELD))]
    ensures Steps(cfg, a, st) && 1 in st.db.plans && st.db.plans[1].status == Completed
  {
    st := Put(a, CompleteTask(a.db, HELD, [], 3, a.now).0, 1, Handled);
    SucceedCompletes(a.db.plans[1], a.now);
    SucceedStep(cfg, a);
  }

  lemma SucceedStep(cfg: Config, a: Sys)
    requires 3 !in a.db.outbox && 1 in a.jobs && a.jobs[1] == Job(None, Executing(HELD))
    requires CompleteTask(a.db, HELD, [], 3, a.now).1.Some?
    ensures Steps(cfg, a, Put(a, CompleteTask(a.db, HELD, [], 3, a.now).0, 1, Handled))
  {
    RuntimeStep(cfg, a, Succeed(1, [], 3));
  }

  /** A completed plan is reachable. */
  lemma CompletedIsReachable(cfg: Config) returns (st: Sys)
    ensures IsReachable(cfg, st) && 1 in st.db.plans && st.db.plans[1].status == Completed
  {
    var a := Working(cfg);
    st := TaskIsDone(cfg, a);
    Reached(cfg, a, st);
  }

  // ---------- Compensation ----------

  const ERROR: TaskError := TaskError("failed", true, false)

  /** The execution waits for compensation; n attempts have been made. */
  predicate ToCompensate(db: Db, n: nat, k: int) {
    && db.plans.Keys == {1} && 1 in db.turns && db.plans[1].turn == 1 && db.inbox == {}
    && (forall e :: e in db.outbox ==> e < k)
    && var rec := db.plans[1];
       && rec.status == Running && rec.current == Some(1) && rec.tasks.Keys == {1} && rec.tasks[1].status == TaskRunning
       && rec.executions.Keys == {1}
       && var e := rec.executions[1];
          && e.task == 1 && e.attempt == 1 && e.operation == 1 && e.agentRun == 1
          && e.status == CompensationRequired && e.compensationAttempts == n
  }

  lemma RequireEffect(cfg: Config, db: Db, now: int, at: int)
    requires db.plans == map[1 := OneTask(Running, Some(1), Started(cfg, at), map[1 := FIRST])] && 1 in db.turns
    requires db.inbox == {} && forall e :: e in db.outbox ==> e < 3
    ensures Require(db, HELD, ERROR, 3, now).1.Some? && ToCompensate(Require(db, HELD, ERROR, 3, now).0, 0, 3)
  {
  }

  lemma TaskFails(cfg: Config, a: Sys) returns (st: Sys)
    requires cfg.process.sideEffect && a.jobs == map[1 := Job(None, Executing(HELD))]
    requires Holds(a, OneTask(Running, Some(1), Started(cfg, a.now), map[1 := FIRST]), 3)
    ensures Steps(cfg, a, st) && ToCompensate(st.db, 0, 3) && st.jobs == map[1 := Job(None, Recovering(HELD, None))]
  {
    st := Put(a, Require(a.db, HELD, ERROR, 3, a.now).0, 1, Recovering(HELD, None));
    RequireEffect(cfg, a.db, a.now, a.now);
    FailStep(cfg, a);
  }

  lemma FailStep(cfg: Config, a: Sys)
    requires 3 !in a.db.outbox && 1 in a.jobs && a.jobs[1] == Job(None, Executing(HELD))
    requires HasSideEffect(cfg, a.db, HELD) && Require(a.db, HELD, ERROR, 3, a.now).1.Some?
    ensures Steps(cfg, a, Put(a, Require(a.db, HELD, ERROR, 3, a.now).0, 1, Recovering(HELD, None)))
  {
    RuntimeStep(cfg, a, Fail(1, ERROR, 3));
  }

  lemma BeginEffect(db: Db, n: nat, k: int, now: int)
    requires ToCompensate(db, n, k)
    ensures Begin(db, HELD, 0, now).1 == Some(n + 1) && ToCompensate(Begin(db, HELD, 0, now).0, n + 1, k)
  {
  }

  lemma AttemptBegins(cfg: Config, st: Sys, n: nat, k: int) returns (b: Sys)
    requires ToCompensate(st.db, n, k) && st.jobs == map[1 := Job(None, Recovering(HELD, None))]
    ensures Steps(cfg, st, b) && ToCompensate(b.db, n + 1, k)
    ensures b.jobs == map[1 := Job(None, Compensating(HELD, None, n + 1))]
  {
    b := Put(st, Begin(st.db, HELD, 0, st.now).0, 1, Compensating(HELD, None, n + 1));
    BeginEffect(st.db, n, k, st.now);
    BeginStep(cfg, st, n);
  }

  lemma BeginStep(cfg: Config, st: Sys, n: nat)
    requires 1 in st.jobs && st.jobs[1] == Job(None, Recovering(HELD, None))
    requires Begin(st.db, HELD, 0, st.now).1 == Some(n + 1)
    ensures Steps(cfg, st, Put(st, Begin(st.db, HELD, 0, st.now).0, 1, Compensating(HELD, None, n + 1)))
  {
    RuntimeStep(cfg, st, BeginAttempt(1));
  }

  lemma LockEffect(cfg: Config, db: Db, n: nat, k: int, now: int)
    requires ToCompensate(db, n, k) && n >= 1 && n >= cfg.maxCompensation
    ensures var r := CompensationFailed(cfg, db, HELD, n, None, k, now);
            && r.1.Some? && 1 in r.0.plans && 1 in r.0.plans[1].executions
            && r.0.plans[1].executions[1].status == CompensationLocked
  {
  }

  lemma LastAttemptFails(cfg: Config, st: Sys, n: nat, k: int) returns (b: Sys)
    requires ToCompensate(st.db, n, k) && st.jobs == map[1 := Job(None, Compensating(HELD, None, n))]
    requires n >= 1 && n >= cfg.maxCompensation
    ensures Steps(cfg, st, b) && 1 in b.db.plans && 1 in b.db.plans[1].executions
    ensures b.db.plans[1].executions[1].status == CompensationLocked
  {
    b := Put(st, CompensationFailed(cfg, st.db, HELD, n, None, k, st.now).0, 1, Handled);
    LockEffect(cfg, st.db, n, k, st.now);
    AttemptFailsStep(cfg, st, n, k);
  }

  lemma AttemptFailsStep(cfg: Config, st: Sys, n: nat, k: int)
    requires n >= 1 && k !in st.db.outbox && 1 in st.jobs && st.jobs[1] == Job(None, Compensating(HELD, None, n))
    requires CompensationFailed(cfg, st.db, HELD, n, None, k, st.now).1.Some?
    ensures Steps(cfg, st, Put(st, CompensationFailed(cfg, st.db, HELD, n, None, k, st.now).0, 1, Handled))
  {
    RuntimeStep(cfg, st, AttemptFails(1, k));
  }

  lemma RetryEffect(cfg: Config, db: Db, n: nat, k: int, now: int)
    requires ToCompensate(db, n, k) && 1 <= n < cfg.maxCompensation
    ensures var r := CompensationFailed(cfg, db, HELD, n, None, k, now);
            r.1.Some? && ToCompensate(r.0, n, k + 1)
  {
  }

  lemma AttemptFailsOnce(cfg: Config, st: Sys, n: nat, k: int) returns (b: Sys)
    requires ToCompensate(st.db, n, k) && st.jobs == map[1 := Job(None, Compensating(HELD, None, n))]
    requires 1 <= n < cfg.maxCompensation
    ensures Steps(cfg, st, b) && ToCompensate(b.db, n, k + 1) && b.jobs == map[1 := Job(None, Handled)]
  {
    b := Put(st, CompensationFailed(cfg, st.db, HELD, n, None, k, st.now).0, 1, Handled);
    RetryEffect(cfg, st.db, n, k, st.now);
    AttemptFailsStep(cfg, st, n, k);
  }

  lemma WorkerIsGone(cfg: Config, st: Sys) returns (c: Sys)
    requires st.jobs.Keys == {1}
    ensures Steps(cfg, st, c) && c.db == st.db && c.jobs == map[] && c.now == st.now
  {
    c := ExecMessaging(st, Crash(1));
    MessagingStep(cfg, st, Crash(1));
  }

  lemma RecoverEffect(cfg: Config, db: Db, n: nat, k: int, now: int)
    requires ToCompensate(db, n, k)
    ensures Claim(cfg, db, 1, None, None, None, NewIds(2, 2, 2), k, now) == (db, Some(Recover(HELD)))
  {
    var rec := db.plans[1];
    assert IsLatest(rec, 1, 1);
    assert Latest(rec, 1) == Some(1);
    assert RecoverStale(cfg, rec, 1, now) == Found(1, rec);
    assert db.plans[1 := rec] == db.plans;
  }

  lemma ExecutionIsFound(cfg: Config, d: Sys, n: nat, k: int) returns (b: Sys)
    requires ToCompensate(d.db, n, k) && d.jobs == map[1 := Job(None, Claiming(1, None, None, None))]
    ensures Steps(cfg, d, b) && b.db == d.db && b.jobs == map[1 := Job(None, Recovering(HELD, None))]
  {
    b := Put(d, d.db, 1, Recovering(HELD, None));
    RecoverEffect(cfg, d.db, n, k, d.now);
    ClaimStep(cfg, d, NewIds(2, 2, 2), k, Recover(HELD));
  }

  /** The worker is gone; another one is called and finds the execution. */
  lemma RecoverAgain(cfg: Config, st: Sys, n: nat, k: int) returns (b: Sys)
    requires IsReachable(cfg, st) && ToCompensate(st.db, n, k) && st.jobs == map[1 := Job(None, Handled)]
    ensures IsReachable(cfg, b) && ToCompensate(b.db, n, k) && b.jobs == map[1 := Job(None, Recovering(HELD, None))]
  {
    var c := WorkerIsGone(cfg, st);
    Reached(cfg, st, c);
    var d := RuntimeIsCalled(cfg, c);
    Reached(cfg, c, d);
    b := ExecutionIsFound(cfg, d, n, k);
    Reached(cfg, d, b);
  }

  lemma {:induction false} LockAfter(cfg: Config, st: Sys, n: nat, k: int) returns (b: Sys)
    requires IsReachable(cfg, st) && ToCompensate(st.db, n, k) && st.jobs == map[1 := Job(None, Recovering(HELD, None))]
    ensures IsReachable(cfg, b) && 1 in b.db.plans && 1 in b.db.plans[1].executions
    ensures b.db.plans[1].executions[1].status == CompensationLocked
    decreases cfg.maxCompensation - n
  {
    var c := AttemptBegins(cfg, st, n, k);
    Reached(cfg, st, c);
    if n + 1 >= cfg.maxCompensation {
      b := LastAttemptFails(cfg, c, n + 1, k);
      Reached(cfg, c, b);
    } else {
      var d := AttemptFailsOnce(cfg, c, n + 1, k);
      Reached(cfg, c, d);
      var e := RecoverAgain(cfg, d, n + 1, k + 1);
      b := LockAfter(cfg, e, n + 1, k + 1);
    }
  }

  /** A locked compensation is reachable, whatever the limit on attempts. */
  lemma LockIsReachable(cfg: Config) returns (st: Sys)
    requires cfg.process.sideEffect
    ensures IsReachable(cfg, st) && 1 in st.db.plans && 1 in st.db.plans[1].executions
    ensures st.db.plans[1].executions[1].status == CompensationLocked
  {
    var a := Working(cfg);
    var b := TaskFails(cfg, a);
    Reached(cfg, a, b);
    st := LockAfter(cfg, b, 0, 3);
  }
}
