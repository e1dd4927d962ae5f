/**
  What a planner asked for, from its drafts to the published graph: no task, reference,
  capability, sequence number or dependency is lost or invented on the way.
 */
module DraftLaws {
  import opened Common
  import opened PlanDag
  import opened WorkflowRows
  import opened PlanLifecycle
  import opened PlanPublication
  import opened WorkflowStore
  import opened WorkflowCommit
  import opened RuntimeTransactions
  import opened PlanningTransactions
  import opened WorkflowSystem
  import opened SystemRuns

  predicate HasTask(db: Db, p: PlanId, t: TaskId) {
    p in db.plans && t in db.plans[p].tasks
  }

  /** The stored task is the requested one, with its dependencies without repetition. */
  ghost predicate IsRequested(task: Task, row: NewTask) {
    && task.ref == row.ref && task.capability == row.capability && task.sequence == row.sequence
    && IsFirstOccurrences(task.dependsOn, row.dependsOn)
  }

  // ---------- One step ----------

  /** A plan takes another draft: it is being planned for this turn, and the draft fits to the others. */
  ghost predicate TakesDraft(db: Db, p: PlanId, turn: TurnId, row: NewTask) {
    && p in db.plans && db.plans[p].status == Planning && db.plans[p].turn == turn
    && |db.plans[p].tasks| < 10
    && (forall t :: t in db.plans[p].tasks ==>
          db.plans[p].tasks[t].sequence != row.sequence && db.plans[p].tasks[t].ref != row.ref)
    && row.ref !in row.dependsOn
  }

  /** Not tried yet, with three attempts until its capability says otherwise. */
  predicate IsNewDraft(task: Task) {
    task.status == TaskDraft && task.attemptCount == 0 && task.maxAttempts == 3
  }

  lemma DraftsAreTasks(rec: PlanRec)
    requires StatusOk(rec) && rec.status == Planning
    ensures (set t | t in rec.tasks && rec.tasks[t].status == TaskDraft) == rec.tasks.Keys
  {
    forall t | t in rec.tasks ensures rec.tasks[t].status == TaskDraft {
    }
    var drafts := set t | t in rec.tasks && rec.tasks[t].status == TaskDraft;
    assert forall t :: t in drafts <==> t in rec.tasks.Keys;
  }

  /** A draft is stored exactly if the plan takes it, as it was requested; a refused one changes nothing. */
  lemma DraftOutcome(cfg: Config, st: Sys, p: PlanId, turn: TurnId, t: TaskId, row: NewTask)
    requires SysInv(cfg, st) && !HasTask(st.db, p, t)
    ensures var next := Exec(cfg, st, DraftTask(p, turn, t, row));
            if !TakesDraft(st.db, p, turn, row) then next == st
            else
              && HasTask(next.db, p, t) && IsRequested(next.db.plans[p].tasks[t], row)
              && IsNewDraft(next.db.plans[p].tasks[t])
              && next == st.(db := st.db.(plans := st.db.plans[p :=
                   st.db.plans[p].(tasks := st.db.plans[p].tasks[t := next.db.plans[p].tasks[t]])]))
  {
    DraftDb(cfg, st.db, p, turn, t, row);
    DraftStep(cfg, st, p, turn, t, row);
    assert st.(db := st.db) == st;
  }

  lemma DraftStep(cfg: Config, st: Sys, p: PlanId, turn: TurnId, t: TaskId, row: NewTask)
    requires !HasTask(st.db, p, t)
    ensures Exec(cfg, st, DraftTask(p, turn, t, row)) == st.(db := CreateTask(st.db, p, turn, t, row).0)
  {
    PlanningStep(cfg, st, DraftTask(p, turn, t, row));
  }

  lemma DraftDb(cfg: Config, db: Db, p: PlanId, turn: TurnId, t: TaskId, row: NewTask)
    requires DbInv(cfg, db) && !HasTask(db, p, t)
    ensures var b := CreateTask(db, p, turn, t, row).0;
            if !TakesDraft(db, p, turn, row) then b == db
            else
              && HasTask(b, p, t) && IsRequested(b.plans[p].tasks[t], row)
              && IsNewDraft(b.plans[p].tasks[t])
              && b == db.(plans := db.plans[p := db.plans[p].(tasks := db.plans[p].tasks[t := b.plans[p].tasks[t]])])
  {
    DedupIsFirstOccurrences(row.dependsOn);
    if p in db.plans && db.plans[p].status == Planning {
      assert PlanInv(cfg, db.plans[p]);
      DraftsAreTasks(db.plans[p]);
    }
  }

  lemma PlanningAddsNoTask(st: Sys, a: Action, p: PlanId, t: TaskId)
    requires !a.DraftTask? && HasTask(ExecPlanning(st, a).db, p, t)
    ensures HasTask(st.db, p, t)
  {
    if a.PublishPlan? || a.RetryPlanning? || a.AnswerUser? {
      PlannerAddsNoTask(st, a, p, t);
    }
  }

  lemma PlannerAddsNoTask(st: Sys, a: Action, p: PlanId, t: TaskId)
    requires a.PublishPlan? || a.RetryPlanning? || a.AnswerUser?
    requires HasTask(ExecPlanning(st, a).db, p, t)
    ensures HasTask(st.db, p, t)
  {
    if NewEvent(st, a.id) {
      match a
      case PublishPlan(q, turn, id) => PublicationAddsNoTask(st.db, q, turn, id, st.now, p, t);
      case RetryPlanning(q, blank, id) => RetryAddsNoTask(st.db, q, blank, id, st.now, p, t);
      case AnswerUser(turn, c, blank, id) => AnswerAddsNoTask(st.db, turn, c, blank, id, st.now, p, t);
    }
  }

  lemma PublicationAddsNoTask(db: Db, q: PlanId, turn: TurnId, id: EventId, now: int, p: PlanId, t: TaskId)
    requires HasTask(Finalize(db, q, turn, id, now).0, p, t)
    ensures HasTask(db, p, t)
  {
  }

  lemma RetryAddsNoTask(db: Db, q: PlanId, blank: bool, id: EventId, now: int, p: PlanId, t: TaskId)
    requires HasTask(MarkRetryPending(db, q, blank, id, now).0, p, t)
    ensures HasTask(db, p, t)
  {
  }

  lemma AnswerAddsNoTask(db: Db, turn: TurnId, c: ConversationId, blank: bool, id: EventId, now: int, p: PlanId, t: TaskId)
    requires HasTask(Answer(db, turn, c, blank, id, now).0, p, t)
    ensures HasTask(db, p, t)
  {
  }

  ghost predicate SameTasks(a: Db, b: Db) {
    forall p, t :: HasTask(b, p, t) ==> HasTask(a, p, t)
  }

  lemma FinishAddsNoTask<T>(db: Db, p: PlanId, r: Tx<T>, id: EventId, consume: Option<EventId>, now: int)
    requires p in db.plans && (r.Committed? ==> r.rec.tasks.Keys == db.plans[p].tasks.Keys)
    ensures SameTasks(db, Finish(db, p, r, id, consume, now).0)
  {
  }

  lemma ExecutionAddsNoTask(cfg: Config, st: Sys, a: Action)
    requires a.Succeed? || a.Fail?
    ensures SameTasks(st.db, ExecRuntime(cfg, st, a).db)
  {
    if At(st, a.job).Executing? && Known(st.db, At(st, a.job).snapshot.plan) {
      var s := At(st, a.job).snapshot;
      var rec := st.db.plans[s.plan];
      match a
      case Succeed(j, refs, id) => FinishAddsNoTask(st.db, s.plan, Complete(rec, s, refs, st.now), id, None, st.now);
      case Fail(j, error, id) =>
        FinishAddsNoTask(st.db, s.plan, FailTask(cfg, rec, s, error, st.now), id, None, st.now);
        FinishAddsNoTask(st.db, s.plan, RequireCompensation(rec, s, error), id, None, st.now);
    }
  }

  lemma AttemptAddsNoTask(cfg: Config, st: Sys, a: Action)
    requires a.AttemptFails? || a.AttemptSucceeds?
    ensures SameTasks(st.db, ExecRuntime(cfg, st, a).db)
  {
    if At(st, a.job).Compensating? && Known(st.db, At(st, a.job).snapshot.plan) {
      var c := At(st, a.job);
      var rec := st.db.plans[c.snapshot.plan];
      match a
      case AttemptFails(j, id) =>
        if c.attempt >= 1 {
          FinishAddsNoTask(st.db, c.snapshot.plan, FailCompensation(cfg, rec, c.snapshot, c.attempt, st.now), id,
                           if Recorded(st.db, c.wakeup) then None else c.wakeup, st.now);
        }
      case AttemptSucceeds(j, id) =>
        FinishAddsNoTask(st.db, c.snapshot.plan, FinishCompensation(cfg, rec, c.snapshot, st.now), id, c.wakeup, st.now);
    }
  }

  lemma BeginAddsNoTask(cfg: Config, st: Sys, a: Action)
    requires a.BeginAttempt?
    ensures SameTasks(st.db, ExecRuntime(cfg, st, a).db)
  {
    if At(st, a.job).Recovering? && Known(st.db, At(st, a.job).snapshot.plan) {
      var s := At(st, a.job).snapshot;
      FinishAddsNoTask(st.db, s.plan, BeginCompensation(st.db.plans[s.plan], s), 0, None, st.now);
    }
  }

  lemma ClaimKeepsTasks(
    cfg: Config, p: PlanId, rec: PlanRec, event: Option<EventId>, wantedExecution: Option<ExecutionId>,
    wantedOperation: Option<OperationId>, ids: NewIds, now: int)
    ensures var r := ClaimNext(cfg, p, rec, event, wantedExecution, wantedOperation, ids, now);
            r.Committed? ==> r.rec.tasks.Keys == rec.tasks.Keys
  {
  }

  lemma ClaimAddsNoTask(cfg: Config, st: Sys, a: Action)
    requires a.ClaimFor?
    ensures SameTasks(st.db, ExecRuntime(cfg, st, a).db)
  {
    if At(st, a.job).Claiming? && Known(st.db, At(st, a.job).plan) {
      var c := At(st, a.job);
      ClaimKeepsTasks(cfg, c.plan, st.db.plans[c.plan], c.wakeup, c.wantedExecution, c.wantedOperation, a.ids, st.now);
    }
  }

  lemma RuntimeAddsNoTask(cfg: Config, st: Sys, a: Action)
    requires IsRuntimeAction(st, a)
    ensures SameTasks(st.db, ExecRuntime(cfg, st, a).db)
  {
    if a.ClaimFor? {
      ClaimAddsNoTask(cfg, st, a);
    } else if a.Succeed? || a.Fail? {
      ExecutionAddsNoTask(cfg, st, a);
    } else if a.AttemptFails? || a.AttemptSucceeds? {
      AttemptAddsNoTask(cfg, st, a);
    } else if a.BeginAttempt? {
      BeginAddsNoTask(cfg, st, a);
    }
  }

  lemma DispatchAddsNoTask(st: Sys, a: Action, p: PlanId, t: TaskId)
    requires IsDispatchAction(a) && HasTask(ExecDispatch(st, a).db, p, t)
    ensures HasTask(st.db, p, t)
  {
  }

  lemma OtherStepsAddNoTask(cfg: Config, st: Sys, a: Action, p: PlanId, t: TaskId)
    requires !a.DraftTask? && HasTask(Exec(cfg, st, a).db, p, t)
    ensures HasTask(st.db, p, t)
  {
    if IsRuntimeAction(st, a) {
      RuntimeAddsNoTask(cfg, st, a);
    } else if IsDispatchAction(a) {
      DispatchAddsNoTask(st, a, p, t);
    } else if !IsMessagingAction(a) {
      PlanningAddsNoTask(st, a, p, t);
    }
  }

  // ---------- Over runs ----------

  /** Step k of the run is the accepted request for task t of plan p. */
  ghost predicate RequestedAt(cfg: Config, actions: seq<Action>, k: nat, p: PlanId, t: TaskId, row: NewTask)
    requires k < |actions|
  {
    && actions[k].DraftTask? && actions[k].plan == p && actions[k].task == t && actions[k].row == row
    && !HasTask(Run(cfg, INITIAL, actions[..k]).db, p, t) && HasTask(Run(cfg, INITIAL, actions[..k + 1]).db, p, t)
  }

  /** In every run, every task was requested. */
  lemma {:induction false} TaskWasRequested(cfg: Config, actions: seq<Action>, n: nat, p: PlanId, t: TaskId)
    returns (k: nat, row: NewTask)
    requires n <= |actions| && HasTask(Run(cfg, INITIAL, actions[..n]).db, p, t)
    ensures k < n && RequestedAt(cfg, actions, k, p, t, row)
    decreases n
  {
    assert Run(cfg, INITIAL, []) == INITIAL && actions[..0] == [];
    assert n > 0;
    var m: nat := n - 1;
    var st := Run(cfg, INITIAL, actions[..m]);
    RunPrefix(cfg, INITIAL, actions, m);
    if HasTask(st.db, p, t) {
      k, row := TaskWasRequested(cfg, actions, m, p, t);
    } else {
      Reachable(cfg, actions[..m]);
      NewTaskIsRequested(cfg, st, actions[m], p, t);
      k, row := m, actions[m].row;
    }
  }

  lemma NewTaskIsRequested(cfg: Config, st: Sys, a: Action, p: PlanId, t: TaskId)
    requires SysInv(cfg, st) && !HasTask(st.db, p, t) && HasTask(Exec(cfg, st, a).db, p, t)
    ensures a.DraftTask? && a.plan == p && a.task == t
  {
    if a.DraftTask? {
      if !HasTask(st.db, a.plan, a.task) {
        DraftOutcome(cfg, st, a.plan, a.turn, a.task, a.row);
      }
    } else {
      OtherStepsAddNoTask(cfg, st, a, p, t);
      assert false;
    }
  }

  /** In every run, a requested task stays, and stays what it was requested to be. */
  lemma RequestStays(cfg: Config, actions: seq<Action>, k: nat, p: PlanId, t: TaskId, row: NewTask)
    requires k < |actions| && RequestedAt(cfg, actions, k, p, t, row)
    ensures var db := Run(cfg, INITIAL, actions).db;
            HasTask(db, p, t) && IsRequested(db.plans[p].tasks[t], row)
  {
    var st, next := Run(cfg, INITIAL, actions[..k]), Run(cfg, INITIAL, actions[..k + 1]);
    Reachable(cfg, actions[..k]);
    RunPrefix(cfg, INITIAL, actions, k);
    DraftOutcome(cfg, st, p, actions[k].turn, t, row);
    assert actions == actions[..k + 1] + actions[k + 1..];
    RunAppend(cfg, INITIAL, actions[..k + 1], actions[k + 1..]);
    Reachable(cfg, actions[..k + 1]);
    RunKeeps(cfg, next, actions[k + 1..]);
    assert PlanEvolves(next.db, Run(cfg, INITIAL, actions).db, p);
    assert TaskEvolves(next.db.plans[p].tasks[t], Run(cfg, INITIAL, actions).db.plans[p].tasks[t]);
  }

  // ---------- Publication ----------

  /** The plan is published by this step. */
  ghost predicate Publishes(cfg: Config, st: Sys, a: Action, p: PlanId) {
    && a.PublishPlan? && a.plan == p && p in st.db.plans && st.db.plans[p].status == Planning
    && p in Exec(cfg, st, a).db.plans && Exec(cfg, st, a).db.plans[p].status == Ready
  }

  /** The edges are exactly those that the references of the drafts say. */
  predicate EdgesAreReferences(rec: PlanRec) {
    forall t, u :: t in rec.tasks && u in rec.tasks ==>
      ((t, u) in rec.deps <==> rec.tasks[u].ref in rec.tasks[t].dependsOn)
  }

  lemma PublishedEdges(cfg: Config, rec: PlanRec)
    requires PlanInv(cfg, rec) && rec.status == Planning
    ensures EdgesAreReferences(Publish(rec)) && Publish(rec).tasks.Keys == rec.tasks.Keys
  {
    var b := Publish(rec);
    forall t, u | t in b.tasks && u in b.tasks ensures (t, u) in b.deps <==> b.tasks[u].ref in b.tasks[t].dependsOn {
      PublishedEdge(cfg, rec, t, u);
    }
  }

  lemma PublishedEdge(cfg: Config, rec: PlanRec, t: TaskId, u: TaskId)
    requires PlanInv(cfg, rec) && rec.status == Planning && t in rec.tasks && u in rec.tasks
    ensures (t, u) in Publish(rec).deps <==> rec.tasks[u].ref in rec.tasks[t].dependsOn
  {
    DraftsAreTasks(rec);
    assert t in DraftIds(rec) && u in DraftIds(rec);
    DraftPositions(rec, DraftIds(rec), t, u);
  }

  /** An edge of the drafts is a reference between the rows. */
  lemma DraftPositions(rec: PlanRec, l: seq<TaskId>, t: TaskId, u: TaskId)
    requires forall v :: v in l ==> v in rec.tasks
    requires t in l && u in l
    ensures IsEdge(DraftsOf(rec, l), t, u) <==> rec.tasks[u].ref in rec.tasks[t].dependsOn
  {
    var drafts := DraftsOf(rec, l);
    var i :| 0 <= i < |l| && l[i] == t;
    var j :| 0 <= j < |l| && l[j] == u;
    assert drafts[i] == DraftOf(rec, t) && drafts[j] == DraftOf(rec, u);
  }

  lemma PublishIsFinal(cfg: Config, st: Sys, a: Action, p: PlanId, actions: seq<Action>)
    requires SysInv(cfg, st) && Publishes(cfg, st, a, p)
    ensures var b := Run(cfg, Exec(cfg, st, a), actions).db;
            && p in b.plans && EdgesAreReferences(b.plans[p]) && b.plans[p].status != Planning
            && b.plans[p].tasks.Keys == st.db.plans[p].tasks.Keys
  {
    var next := Exec(cfg, st, a);
    assert PlanInv(cfg, st.db.plans[p]);
    PublishedEdges(cfg, st.db.plans[p]);
    assert next.db.plans[p] == Publish(st.db.plans[p]);
    ExecKeeps(cfg, st, a);
    RunKeeps(cfg, next, actions);
    var b := Run(cfg, next, actions).db;
    assert PlanEvolves(next.db, b, p);
    EdgesStay(next.db.plans[p], b.plans[p]);
  }

  lemma EdgesStay(a: PlanRec, b: PlanRec)
    requires EdgesAreReferences(a) && Evolves(a, b) && a.status == Ready
    ensures EdgesAreReferences(b) && b.tasks.Keys == a.tasks.Keys && b.status != Planning
  {
    forall t | t in a.tasks ensures TaskEvolves(a.tasks[t], b.tasks[t]) {
    }
  }

  /** After publication: the same tasks, and the edges of their references. */
  lemma AfterPublication(cfg: Config, actions: seq<Action>, n: nat, p: PlanId, k: nat)
    requires n < k <= |actions| && Publishes(cfg, Run(cfg, INITIAL, actions[..n]), actions[n], p)
    ensures var b := Run(cfg, INITIAL, actions[..k]).db;
            && p in b.plans && EdgesAreReferences(b.plans[p]) && b.plans[p].status != Planning
            && b.plans[p].tasks.Keys == Run(cfg, INITIAL, actions[..n]).db.plans[p].tasks.Keys
  {
    var rest := actions[n + 1..k];
    assert actions[..k] == actions[..n + 1] + rest;
    Reachable(cfg, actions[..n]);
    RunPrefix(cfg, INITIAL, actions, n);
    RunAppend(cfg, INITIAL, actions[..n + 1], rest);
    PublishIsFinal(cfg, Run(cfg, INITIAL, actions[..n]), actions[n], p, rest);
  }

  /** No task is added to a published plan. */
  lemma NoTaskAfterPublication(cfg: Config, actions: seq<Action>, n: nat, p: PlanId, t: TaskId, k: nat, row: NewTask)
    requires n < k < |actions| && Publishes(cfg, Run(cfg, INITIAL, actions[..n]), actions[n], p)
    ensures !RequestedAt(cfg, actions, k, p, t, row)
  {
    AfterPublication(cfg, actions, n, p, k);
    PublishedTakesNone(cfg, actions, p, t, k, row);
  }

  lemma PublishedTakesNone(cfg: Config, actions: seq<Action>, p: PlanId, t: TaskId, k: nat, row: NewTask)
    requires k < |actions|
    requires p in Run(cfg, INITIAL, actions[..k]).db.plans && Run(cfg, INITIAL, actions[..k]).db.plans[p].status != Planning
    ensures !RequestedAt(cfg, actions, k, p, t, row)
  {
    if RequestedAt(cfg, actions, k, p, t, row) {
      Reachable(cfg, actions[..k]);
      RunPrefix(cfg, INITIAL, actions, k);
      DraftOutcome(cfg, Run(cfg, INITIAL, actions[..k]), p, actions[k].turn, t, row);
    }
  }

  /**
    In every run, from the publication of a plan on: its tasks are exactly those requested
    before, each with the requested reference, capability and sequence number, and task t
    depends on task u exactly if the request for t lists the reference of the request for u.
   */
  lemma PublishedAsRequested(
    cfg: Config, actions: seq<Action>, n: nat, p: PlanId, t: TaskId, u: TaskId, k: nat, m: nat, rowT: NewTask, rowU: NewTask)
    requires n < |actions| && Publishes(cfg, Run(cfg, INITIAL, actions[..n]), actions[n], p)
    requires k < |actions| && m < |actions|
    requires RequestedAt(cfg, actions, k, p, t, rowT) && RequestedAt(cfg, actions, m, p, u, rowU)
    ensures k < n && m < n && AsRequested(Run(cfg, INITIAL, actions).db, p, t, u, rowT, rowU)
  {
    RequestStays(cfg, actions, k, p, t, rowT);
    RequestStays(cfg, actions, m, p, u, rowU);
    assert actions[..|actions|] == actions;
    AfterPublication(cfg, actions, n, p, |actions|);
    RequestsPrecede(cfg, actions, n, p, t, k, rowT);
    RequestsPrecede(cfg, actions, n, p, u, m, rowU);
  }

  ghost predicate AsRequested(db: Db, p: PlanId, t: TaskId, u: TaskId, rowT: NewTask, rowU: NewTask) {
    && HasTask(db, p, t) && HasTask(db, p, u)
    && IsRequested(db.plans[p].tasks[t], rowT) && IsRequested(db.plans[p].tasks[u], rowU)
    && ((t, u) in db.plans[p].deps <==> rowU.ref in rowT.dependsOn)
  }

  lemma RequestsPrecede(cfg: Config, actions: seq<Action>, n: nat, p: PlanId, t: TaskId, k: nat, row: NewTask)
    requires n < |actions| && Publishes(cfg, Run(cfg, INITIAL, actions[..n]), actions[n], p)
    requires k < |actions| && RequestedAt(cfg, actions, k, p, t, row)
    ensures k < n
  {
    if k > n {
      NoTaskAfterPublication(cfg, actions, n, p, t, k, row);
    } else if k == n {
      PublicationIsNoRequest(cfg, actions, n, p, t, row);
    }
  }

  lemma PublicationIsNoRequest(cfg: Config, actions: seq<Action>, n: nat, p: PlanId, t: TaskId, row: NewTask)
    requires n < |actions| && actions[n].PublishPlan?
    ensures !RequestedAt(cfg, actions, n, p, t, row)
  {
  }

  // ---------- Chains of dependencies ----------

  /** Each task of the list depends on the next one. */
  predicate IsChain(deps: set<(TaskId, TaskId)>, l: seq<TaskId>) {
    forall i :: 0 < i < |l| ==> (l[i - 1], l[i]) in deps
  }

  /** Drafts that pass validation have no chain of more than three tasks. */
  lemma ChainsAreShort(cfg: Config, rec: PlanRec, l: seq<TaskId>)
    requires PlanInv(cfg, rec) && rec.status == Planning && DagVerdict(DraftsOf(rec, DraftIds(rec))).None?
    requires IsChain(Publish(rec).deps, l) && (forall i :: 0 <= i < |l| ==> l[i] in rec.tasks)
    ensures |l| <= 3
  {
    var drafts := DraftsOf(rec, DraftIds(rec));
    VerdictNone(drafts);
    PublishedEdges(cfg, rec);
    var g := GraphOf(drafts);
    forall t | t in rec.tasks ensures InGraph(g, rec.tasks[t]) {
      DraftInGraph(rec, t);
    }
    forall i | 0 < i < |l| ensures rec.tasks[l[i]].ref in rec.tasks[l[i - 1]].dependsOn {
      EdgeIsReference(rec, Publish(rec), l[i - 1], l[i]);
    }
    ChainIsPath(rec.tasks, g, l);
  }

  lemma EdgeIsReference(rec: PlanRec, after: PlanRec, t: TaskId, u: TaskId)
    requires EdgesAreReferences(after) && (t, u) in after.deps && after.tasks.Keys == rec.tasks.Keys
    requires t in rec.tasks && u in rec.tasks && SameRefs(after.tasks[t], rec.tasks[t]) && SameRefs(after.tasks[u], rec.tasks[u])
    ensures rec.tasks[u].ref in rec.tasks[t].dependsOn
  {
  }

  predicate InGraph(g: Graph, task: Task) {
    task.ref in g && g[task.ref] == task.dependsOn
  }

  lemma ChainIsPath(tasks: map<TaskId, Task>, g: Graph, l: seq<TaskId>)
    requires (forall t :: t in tasks ==> InGraph(g, tasks[t])) && !HasLongPath(g)
    requires forall i :: 0 <= i < |l| ==> l[i] in tasks
    requires forall i :: 0 < i < |l| ==> tasks[l[i]].ref in tasks[l[i - 1]].dependsOn
    ensures |l| <= 3
  {
    if l != [] {
      var p := seq(|l|, i requires 0 <= i < |l| => tasks[l[i]].ref);
      forall i | 0 <= i < |p| ensures p[i] in g && g[p[i]] == tasks[l[i]].dependsOn {
        var t := l[i];
        assert t in tasks && InGraph(g, tasks[t]) && p[i] == tasks[t].ref;
      }
      forall i | 0 < i < |p| ensures p[i] in g[p[i - 1]] {
        assert g[p[i - 1]] == tasks[l[i - 1]].dependsOn;
      }
      assert IsPath(g, p);
    }
  }

  predicate SameRefs(a: Task, b: Task) {
    a.ref == b.ref && a.dependsOn == b.dependsOn
  }

  lemma DraftInGraph(rec: PlanRec, t: TaskId)
    requires StatusOk(rec) && rec.status == Planning && t in rec.tasks && RefsUnique(DraftsOf(rec, DraftIds(rec)))
    ensures var g := GraphOf(DraftsOf(rec, DraftIds(rec)));
            rec.tasks[t].ref in g && g[rec.tasks[t].ref] == rec.tasks[t].dependsOn
  {
    var ids := DraftIds(rec);
    assert t in ids;
    var i :| 0 <= i < |ids| && ids[i] == t;
    assert DraftsOf(rec, ids)[i] == DraftOf(rec, t);
  }

  /** In every run, from the publication of a plan on, no chain of its dependencies has more than three tasks. */
  lemma PublishedChainsAreShort(cfg: Config, before: seq<Action>, a: Action, after: seq<Action>, p: PlanId, l: seq<TaskId>)
    requires var st := Run(cfg, INITIAL, before);
             && Publishes(cfg, st, a, p)
             && var b := Run(cfg, Exec(cfg, st, a), after).db;
                p in b.plans && IsChain(b.plans[p].deps, l) && forall i :: 0 <= i < |l| ==> l[i] in b.plans[p].tasks
    ensures |l| <= 3
  {
    var st := Run(cfg, INITIAL, before);
    Reachable(cfg, before);
    PublishedDeps(cfg, st, a, p, after);
    assert PlanInv(cfg, st.db.plans[p]);
    ChainsAreShort(cfg, st.db.plans[p], l);
  }

  lemma PublishedDeps(cfg: Config, st: Sys, a: Action, p: PlanId, actions: seq<Action>)
    requires SysInv(cfg, st) && Publishes(cfg, st, a, p)
    ensures var b := Run(cfg, Exec(cfg, st, a), actions).db;
            && p in b.plans && b.plans[p].deps == Publish(st.db.plans[p]).deps
            && b.plans[p].tasks.Keys == st.db.plans[p].tasks.Keys
            && DagVerdict(DraftsOf(st.db.plans[p], DraftIds(st.db.plans[p]))).None?
  {
    var next := Exec(cfg, st, a);
    PublishedRow(cfg, st, a, p);
    ExecKeeps(cfg, st, a);
    RunKeeps(cfg, next, actions);
    assert PlanEvolves(next.db, Run(cfg, next, actions).db, p);
    DepsStay(next.db.plans[p], Run(cfg, next, actions).db.plans[p]);
  }

  lemma DepsStay(a: PlanRec, b: PlanRec)
    requires Evolves(a, b) && a.status == Ready
    ensures b.deps == a.deps && b.tasks.Keys == a.tasks.Keys
  {
  }

  lemma PublishedRow(cfg: Config, st: Sys, a: Action, p: PlanId)
    requires Publishes(cfg, st, a, p)
    ensures Exec(cfg, st, a).db.plans[p] == Publish(st.db.plans[p])
    ensures DagVerdict(DraftsOf(st.db.plans[p], DraftIds(st.db.plans[p]))).None?
  {
    PlanningStep(cfg, st, a);
  }
}
