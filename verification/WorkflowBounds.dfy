/**
  Effects happen once, work is bounded, revisions form a chain, and the life of a
  compensation: further guarantees for every run of the workflow engine.
 */
module WorkflowBounds {
  import opened Common
  import opened PlanDag
  import opened WorkflowRows
  import opened PlanLifecycle
  import opened PlanPreservation
  import opened WorkflowStore
  import opened WorkflowCommit
  import opened RuntimeTransactions
  import opened ReplanTransactions
  import opened WorkflowSystem
  import opened SystemRuns

  // ---------- Effect once ----------

  /** A claim for an event in the inbox is rolled back, or it only takes over a compensation. */
  lemma ConsumedClaimStartsNothing(
    cfg: Config, db: Db, p: PlanId, event: Option<EventId>, wantedExecution: Option<ExecutionId>,
    wantedOperation: Option<OperationId>, ids: NewIds, id: EventId, now: int)
    requires Recorded(db, event)
    ensures var r := Claim(cfg, db, p, event, wantedExecution, wantedOperation, ids, id, now);
            (r.1.None? && r.0 == db) || (r.1.Some? && r.1.value.Recover?)
  {
  }

  /**
    Two workers have both passed the inbox check for one event. Once the claim of the first
    has consumed it, the claim of the second, however late, starts no execution.
   */
  lemma OneClaimPerEvent(
    cfg: Config, st: Sys, actions: seq<Action>, event: EventId, p: PlanId, wantedExecution: Option<ExecutionId>,
    wantedOperation: Option<OperationId>, ids: NewIds, id: EventId, now: int)
    requires SysInv(cfg, st) && (TaskRuntime, event) in st.db.inbox
    ensures var db := Run(cfg, st, actions).db;
            var r := Claim(cfg, db, p, Some(event), wantedExecution, wantedOperation, ids, id, now);
            (r.1.None? && r.0 == db) || (r.1.Some? && r.1.value.Recover?)
  {
    RunKeeps(cfg, st, actions);
    ConsumedClaimStartsNothing(
      cfg, Run(cfg, st, actions).db, p, Some(event), wantedExecution, wantedOperation, ids, id, now);
  }

  /** Executions started by events map injectively to inbox rows. */
  lemma ExecutionsMapToInbox(
    cfg: Config, actions: seq<Action>, p: PlanId, x: ExecutionId, q: PlanId, y: ExecutionId, e: EventId)
    requires var db := Run(cfg, INITIAL, actions).db;
             ClaimedFor(db, p, x, e) && ClaimedFor(db, q, y, e)
    ensures (TaskRuntime, e) in Run(cfg, INITIAL, actions).db.inbox
    ensures p == q && x == y
  {
    Reachable(cfg, actions);
  }

  /** An acknowledged wakeup is in the inbox. */
  lemma AcknowledgedIsConsumed(cfg: Config, actions: seq<Action>, n: EntryId)
    requires n in Run(cfg, INITIAL, actions).acked
    ensures var st := Run(cfg, INITIAL, actions);
            n in st.stream && st.stream[n] in st.db.outbox
            && (ConsumerOf(st.db.outbox[st.stream[n]].kind), st.stream[n]) in st.db.inbox
  {
    Reachable(cfg, actions);
    var st := Run(cfg, INITIAL, actions);
    assert Done(st, st.stream[n]);
  }

  // ---------- Work bound ----------

  /** The greatest number of attempts that any capability allows. */
  function MaxLimit(cfg: Config): nat {
    var a, b, c := cfg.Limit(ProcessDocument), cfg.Limit(BuildDocumentChunks), cfg.Limit(IndexDocumentVectors);
    if a >= b && a >= c then a else if b >= c then b else c
  }

  ghost function ExecutionsOf(db: Db, w: WorkflowId): (s: set<(PlanId, ExecutionId)>) {
    set p, x | p in db.plans && db.plans[p].workflow == w && x in db.plans[p].executions :: (p, x)
  }

  /** The slot of an execution among the revisions and sequence numbers of its workflow. */
  function Slot(db: Db, k: (PlanId, ExecutionId)): int
    requires k.0 in db.plans && k.1 in db.plans[k.0].executions
    requires db.plans[k.0].executions[k.1].task in db.plans[k.0].tasks
  {
    var rec := db.plans[k.0];
    (rec.revision - 1) * MAX_TASKS_PER_PLAN + (rec.tasks[rec.executions[k.1].task].sequence - 1)
  }

  function Attempt(db: Db, k: (PlanId, ExecutionId)): nat
    requires k.0 in db.plans && k.1 in db.plans[k.0].executions
  {
    db.plans[k.0].executions[k.1].attempt
  }

  ghost predicate InBounds(cfg: Config, db: Db, k: (PlanId, ExecutionId)) {
    && k.0 in db.plans && k.1 in db.plans[k.0].executions
    && db.plans[k.0].executions[k.1].task in db.plans[k.0].tasks
    && 0 <= Slot(db, k) < MAX_PLAN_REVISIONS * MAX_TASKS_PER_PLAN
    && 1 <= Attempt(db, k) <= MaxLimit(cfg)
  }

  ghost predicate SamePlace(cfg: Config, db: Db, j: (PlanId, ExecutionId), k: (PlanId, ExecutionId)) {
    && InBounds(cfg, db, j) && InBounds(cfg, db, k)
    && Slot(db, j) == Slot(db, k) && Attempt(db, j) == Attempt(db, k)
  }

  lemma ExecutionInBounds(cfg: Config, db: Db, p: PlanId, x: ExecutionId)
    requires RevisionsOk(db) && p in db.plans && PlanInv(cfg, db.plans[p]) && x in db.plans[p].executions
    ensures InBounds(cfg, db, (p, x))
  {
    var rec := db.plans[p];
    assert ParentOk(db, p);
    var t := rec.executions[x].task;
    assert t in rec.tasks;
    assert TaskBounded(cfg, rec.tasks[t]);
  }

  /** Executions of a workflow with the same slot and attempt are the same. */
  lemma SlotsAreDistinct(cfg: Config, db: Db, j: (PlanId, ExecutionId), k: (PlanId, ExecutionId))
    requires RevisionsOk(db) && InBounds(cfg, db, j) && InBounds(cfg, db, k)
    requires PlanInv(cfg, db.plans[j.0]) && PlanInv(cfg, db.plans[k.0])
    requires db.plans[j.0].workflow == db.plans[k.0].workflow
    requires Slot(db, j) == Slot(db, k) && Attempt(db, j) == Attempt(db, k)
    ensures j == k
  {
    var r, s := db.plans[j.0], db.plans[k.0];
    var t, u := r.executions[j.1].task, s.executions[k.1].task;
    SequenceInRange(cfg, r, j.1);
    SequenceInRange(cfg, s, k.1);
    assert r.revision == s.revision && r.tasks[t].sequence == s.tasks[u].sequence;
    assert j.0 == k.0;
    assert t == u;
  }

  lemma SequenceInRange(cfg: Config, rec: PlanRec, x: ExecutionId)
    requires AttemptsOk(rec) && SequencesOk(rec) && x in rec.executions
    ensures rec.executions[x].task in rec.tasks
    ensures 1 <= rec.tasks[rec.executions[x].task].sequence <= MAX_TASKS_PER_PLAN
  {
    var t := rec.executions[x].task;
    assert t in rec.tasks && rec.tasks[t].attemptCount > 0;
  }

  /** Pairs (slot, attempt) fit into slots * attempts. */
  lemma {:induction false} PairsFit(s: set<(int, int)>, slots: nat, attempts: nat)
    requires forall k :: k in s ==> 0 <= k.0 < slots && 1 <= k.1 <= attempts
    ensures |s| <= slots * attempts
  {
    if slots == 0 {
      assert s == {} by {
        if k :| k in s {
        }
      }
    } else {
      var last := set k | k in s && k.0 == slots - 1;
      var rest := set k | k in s && k.0 != slots - 1;
      assert s == last + rest && last !! rest;
      PairsFit(rest, slots - 1, attempts);
      RowFits(last, slots - 1, attempts);
      assert slots * attempts == (slots - 1) * attempts + attempts;
    }
  }

  lemma {:induction false} RowFits(s: set<(int, int)>, slot: int, attempts: nat)
    requires forall k :: k in s ==> k.0 == slot && 1 <= k.1 <= attempts
    ensures |s| <= attempts
  {
    if attempts == 0 {
      assert s == {} by {
        if k :| k in s {
        }
      }
    } else {
      RowFits(s - {(slot, attempts)}, slot, attempts - 1);
      assert |s| <= |s - {(slot, attempts)}| + 1;
    }
  }

  /** An injective image has as many elements. */
  lemma {:induction false} ImageSize(cfg: Config, db: Db, s: set<(PlanId, ExecutionId)>)
    requires forall k :: k in s ==> InBounds(cfg, db, k)
    requires forall j, k :: j in s && k in s && SamePlace(cfg, db, j, k) ==> j == k
    ensures |s| <= MAX_PLAN_REVISIONS * MAX_TASKS_PER_PLAN * MaxLimit(cfg)
  {
    var image := set k | k in s && InBounds(cfg, db, k) :: (Slot(db, k), Attempt(db, k) as int);
    ImageGrows(cfg, db, s, image);
    PairsFit(image, MAX_PLAN_REVISIONS * MAX_TASKS_PER_PLAN, MaxLimit(cfg));
  }

  lemma {:induction false} ImageGrows(cfg: Config, db: Db, s: set<(PlanId, ExecutionId)>, image: set<(int, int)>)
    requires forall k {:trigger InBounds(cfg, db, k)} :: k in s ==>
               InBounds(cfg, db, k) && (Slot(db, k), Attempt(db, k) as int) in image
    requires forall j, k :: j in s && k in s && SamePlace(cfg, db, j, k) ==> j == k
    ensures |s| <= |image|
    decreases s
  {
    if k :| k in s {
      var rest := s - {k};
      assert InBounds(cfg, db, k);
      var point := (Slot(db, k), Attempt(db, k) as int);
      forall j | j in rest ensures InBounds(cfg, db, j) && (Slot(db, j), Attempt(db, j) as int) in image - {point} {
        assert InBounds(cfg, db, j);
        assert !SamePlace(cfg, db, j, k);
      }
      ImageGrows(cfg, db, rest, image - {point});
    } else {
      assert s == {};
    }
  }

  /** A workflow makes at most revisions * tasks * attempts claims, whatever happens. */
  lemma WorkIsBounded(cfg: Config, actions: seq<Action>, w: WorkflowId)
    ensures |ExecutionsOf(Run(cfg, INITIAL, actions).db, w)| <= MAX_PLAN_REVISIONS * MAX_TASKS_PER_PLAN * MaxLimit(cfg)
  {
    var db := Run(cfg, INITIAL, actions).db;
    Reachable(cfg, actions);
    DbWorkIsBounded(cfg, db, w);
  }

  lemma DbWorkIsBounded(cfg: Config, db: Db, w: WorkflowId)
    requires DbInv(cfg, db)
    ensures |ExecutionsOf(db, w)| <= MAX_PLAN_REVISIONS * MAX_TASKS_PER_PLAN * MaxLimit(cfg)
  {
    var s := ExecutionsOf(db, w);
    forall k | k in s ensures InBounds(cfg, db, k) {
      assert PlanInv(cfg, db.plans[k.0]);
      ExecutionInBounds(cfg, db, k.0, k.1);
    }
    forall j, k | j in s && k in s && SamePlace(cfg, db, j, k) ensures j == k {
      assert PlanInv(cfg, db.plans[j.0]) && PlanInv(cfg, db.plans[k.0]);
      SlotsAreDistinct(cfg, db, j, k);
    }
    ImageSize(cfg, db, s);
  }

  /** With the shipped registry that is 90 claims. */
  lemma ShippedBound(actions: seq<Action>, w: WorkflowId)
    ensures |ExecutionsOf(Run(SHIPPED, INITIAL, actions).db, w)| <= 90
  {
    WorkIsBounded(SHIPPED, actions, w);
  }

  /** A claim that starts an execution spends one unit of the budget. */
  lemma ClaimSpendsBudget(
    cfg: Config, db: Db, p: PlanId, event: Option<EventId>, ids: NewIds, id: EventId, now: int)
    requires DbInv(cfg, db) && p in db.plans && Open(db.plans[p].status) && db.plans[p].current.None?
    requires !Recorded(db, event) && ids.execution !in db.plans[p].executions
    ensures var r := Claim(cfg, db, p, event, None, None, ids, id, now);
            var w := db.plans[p].workflow;
            |ExecutionsOf(r.0, w)| == |ExecutionsOf(db, w)| + 1
  {
    var w := db.plans[p].workflow;
    assert PlanInv(cfg, db.plans[p]);
    var t := ClaimStarts(cfg, p, db.plans[p], event, ids, now);
    ClaimStartResult(cfg, db, p, event, ids, id, now, t);
    var emit := EmitWakeup(None, None, now + cfg.Of(db.plans[p].tasks[t].capability).timeout);
    StartAddsOne(cfg, db, p, t, ids, event, id, emit, now);
  }

  lemma StartAddsOne(
    cfg: Config, db: Db, p: PlanId, t: TaskId, ids: NewIds, event: Option<EventId>, id: EventId, emit: Emission, now: int)
    requires p in db.plans && db.plans[p].turn in db.turns && t in db.plans[p].tasks
    requires ids.execution !in db.plans[p].executions
    ensures var rec := StartAttempt(cfg, Requeue(db.plans[p]), t, ids, event, now);
            var b := CommitPlan(db, p, rec, Some(emit), id, event, now);
            |ExecutionsOf(b, rec.workflow)| == |ExecutionsOf(db, rec.workflow)| + 1
  {
    var rec := StartAttempt(cfg, Requeue(db.plans[p]), t, ids, event, now);
    var b := CommitPlan(db, p, rec, Some(emit), id, event, now);
    assert rec.executions.Keys == db.plans[p].executions.Keys + {ids.execution};
    assert ExecutionsOf(b, rec.workflow) == ExecutionsOf(db, rec.workflow) + {(p, ids.execution)};
  }

  /** Executions are never forgotten, so the budget of a workflow is never given back. */
  lemma BudgetNeverGrows(cfg: Config, st: Sys, actions: seq<Action>, w: WorkflowId)
    requires SysInv(cfg, st)
    ensures ExecutionsOf(st.db, w) <= ExecutionsOf(Run(cfg, st, actions).db, w)
  {
    RunKeeps(cfg, st, actions);
    var later := Run(cfg, st, actions);
    forall p, x | (p, x) in ExecutionsOf(st.db, w) ensures (p, x) in ExecutionsOf(later.db, w) {
      assert PlanEvolves(st.db, later.db, p);
    }
  }

  // ---------- Revisions ----------

  /** The revisions of a workflow are exactly 1, ..., k with k at most three, and only k is not superseded. */
  lemma RevisionsAreAChain(cfg: Config, actions: seq<Action>, p: PlanId, r: nat) returns (q: PlanId)
    requires var db := Run(cfg, INITIAL, actions).db;
             p in db.plans && 1 <= r <= db.plans[p].revision
    ensures var db := Run(cfg, INITIAL, actions).db;
            && IsRevision(db, db.plans[p].workflow, r, q)
            && db.plans[p].revision <= MAX_PLAN_REVISIONS
            && (r < db.plans[p].revision ==> db.plans[q].status == Superseded)
            && (r > 1 ==> db.plans[q].parent.Some? && IsRevision(db, db.plans[p].workflow, r - 1, db.plans[q].parent.value))
            && (db.plans[p].status == Superseded <==>
                  PlanAt(db, db.plans[p].workflow, db.plans[p].revision + 1).Some?)
  {
    Reachable(cfg, actions);
    q := ChainAt(Run(cfg, INITIAL, actions).db, p, r);
  }

  lemma ChainAt(db: Db, p: PlanId, r: nat) returns (q: PlanId)
    requires RevisionsOk(db) && p in db.plans && 1 <= r <= db.plans[p].revision
    ensures IsRevision(db, db.plans[p].workflow, r, q)
    ensures db.plans[p].revision <= MAX_PLAN_REVISIONS
    ensures r < db.plans[p].revision ==> db.plans[q].status == Superseded
    ensures r > 1 ==> db.plans[q].parent.Some? && IsRevision(db, db.plans[p].workflow, r - 1, db.plans[q].parent.value)
    ensures db.plans[p].status == Superseded <==>
              PlanAt(db, db.plans[p].workflow, db.plans[p].revision + 1).Some?
  {
    q := RevisionChain(db, p, r);
    SupersededExactly(db, p);
    assert ParentOk(db, q) && ParentOk(db, p);
  }

  /** Given up for good: once a replan was asked for, the plan is never ready or running again. */
  lemma ReplannedPlanNeverRuns(cfg: Config, st: Sys, actions: seq<Action>, e: EventId)
    requires SysInv(cfg, st) && e in st.db.outbox && st.db.outbox[e].kind.ReplanRequested?
    ensures var later := Run(cfg, st, actions).db;
            var p := st.db.outbox[e].plan;
            p in later.plans && !Open(later.plans[p].status) && Abandoned(later.plans[p].status)
  {
    RunKeeps(cfg, st, actions);
    assert EventOk(st.db, e);
    assert PlanEvolves(st.db, Run(cfg, st, actions).db, st.db.outbox[e].plan);
  }

  /** A superseded plan stays superseded, a completed one completed. */
  lemma FinalStatusesStay(cfg: Config, st: Sys, actions: seq<Action>, p: PlanId)
    requires SysInv(cfg, st) && p in st.db.plans
    ensures var later := Run(cfg, st, actions).db;
            p in later.plans && PlanMove(st.db.plans[p].status, later.plans[p].status)
  {
    RunKeeps(cfg, st, actions);
    assert PlanEvolves(st.db, Run(cfg, st, actions).db, p);
  }

  // ---------- Compensation ----------

  /** The i-th recorded failure has attempt number at least i + 1. */
  lemma {:induction false} FailureNumbers(cfg: Config, e: Execution, i: nat)
    requires FailuresOk(cfg, e) && i < |e.failures|
    ensures e.failures[i].attempt >= i + 1
  {
    if i > 0 {
      FailureNumbers(cfg, e, i - 1);
    }
  }

  /** A later attempt never waits for a shorter time, up to the cap. */
  lemma {:induction false} DoubledGrows(d: nat, m: nat, n: nat)
    requires m <= n
    ensures Doubled(d, m) <= Doubled(d, n)
    decreases n
  {
    if m < n {
      DoubledGrows(d, m, n - 1);
    }
  }

  lemma BackoffGrows(cfg: Config, a: nat, b: nat)
    requires 1 <= a <= b
    ensures Backoff(cfg, a) <= Backoff(cfg, b) <= cfg.compensationMaxDelay
  {
    DoubledGrows(cfg.compensationDelay, a - 1, b - 1);
  }

  /**
    The failures recorded for an execution: as many as allowed, in increasing order, with
    delays that do not shrink, and a lock exactly at the failure that reaches the limit.
   */
  lemma CompensationFailuresAreBounded(cfg: Config, actions: seq<Action>, p: PlanId, x: ExecutionId)
    requires var db := Run(cfg, INITIAL, actions).db;
             p in db.plans && x in db.plans[p].executions
    ensures var e := Run(cfg, INITIAL, actions).db.plans[p].executions[x];
            FailureBound(cfg, e)
  {
    Reachable(cfg, actions);
    var db := Run(cfg, INITIAL, actions).db;
    assert PlanInv(cfg, db.plans[p]);
    BoundOfFailures(cfg, db.plans[p].executions[x]);
  }

  ghost predicate FailureBound(cfg: Config, e: Execution) {
    var f := e.failures;
    && |f| <= (if cfg.maxCompensation < 1 then 1 else cfg.maxCompensation)
    && (forall i, j :: 0 <= i < j < |f| ==>
          && f[i].attempt < f[j].attempt && f[i].delay.Some?
          && (f[j].delay.Some? ==> f[i].delay.value <= f[j].delay.value))
    && (e.status == CompensationLocked <==> f != [] && f[|f| - 1].delay.None?)
  }

  lemma BoundOfFailures(cfg: Config, e: Execution)
    requires FailuresOk(cfg, e)
    ensures FailureBound(cfg, e)
  {
    var f := e.failures;
    if |f| >= 2 {
      FailureNumbers(cfg, e, |f| - 2);
    }
    forall i, j | 0 <= i < j < |f| && f[j].delay.Some? ensures f[i].delay.Some? && f[i].delay.value <= f[j].delay.value {
      BackoffGrows(cfg, f[i].attempt, f[j].attempt);
    }
  }

  /** From a lock no step of any worker changes the execution, its task, or the plan's current task. */
  lemma LockIsAbsorbing(cfg: Config, st: Sys, actions: seq<Action>, p: PlanId, x: ExecutionId)
    requires SysInv(cfg, st) && p in st.db.plans && IsLocked(st.db.plans[p], x)
    ensures var rec, later := st.db.plans[p], Run(cfg, st, actions).db;
            && p in later.plans && later.plans[p].current == rec.current
            && x in later.plans[p].executions && later.plans[p].executions[x] == rec.executions[x]
            && rec.executions[x].task in rec.tasks && rec.executions[x].task in later.plans[p].tasks
            && later.plans[p].tasks[rec.executions[x].task] == rec.tasks[rec.executions[x].task]
  {
    RunKeeps(cfg, st, actions);
    var rec := st.db.plans[p];
    assert PlanInv(cfg, rec);
    assert PlanEvolves(st.db, Run(cfg, st, actions).db, p);
    assert ExecutionEvolves(rec.executions[x], Run(cfg, st, actions).db.plans[p].executions[x]);
  }
}
