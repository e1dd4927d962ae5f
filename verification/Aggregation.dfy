/**
  The facts that an aggregation reads: a plan, its tasks and its successful executions. A
  plan that the engine has completed always passes the checks.
 */
module Aggregation {
  import opened Common
  import opened PlanDag
  import opened WorkflowRows
  import opened PlanLifecycle
  import opened PlanPublication
  import opened WorkflowSystem
  import opened SystemRuns
  import opened TaskRuntimeService

  datatype AggregationError = NotCompleted | TasksNotSucceeded | ExecutionsIncomplete | SelectionMissing

  datatype AggregationSnapshot = AggregationSnapshot(tasks: seq<TaskId>, chains: seq<int>, refs: seq<string>)

  // ---------- The snapshot ----------

  predicate IsSucceeded(rec: PlanRec, x: ExecutionId) {
    x in rec.executions && rec.executions[x].status == ExecSucceeded
  }

  /** The tasks of the successful executions, in the order of the list. */
  function SuccessTasks(rec: PlanRec, order: seq<ExecutionId>): seq<TaskId> {
    if order == [] then []
    else
      var front, x := SuccessTasks(rec, order[..|order| - 1]), order[|order| - 1];
      if IsSucceeded(rec, x) then front + [rec.executions[x].task] else front
  }

  /** The same tasks, each where it first appears. */
  function TasksSeen(rec: PlanRec, order: seq<ExecutionId>): (l: seq<TaskId>)
    ensures Distinct(l)
  {
    Dedup(SuccessTasks(rec, order))
  }

  ghost predicate HasSuccess(rec: PlanRec, order: seq<ExecutionId>, t: TaskId) {
    exists x :: x in order && IsSucceeded(rec, x) && rec.executions[x].task == t
  }

  lemma {:induction false} SeenIsSuccess(rec: PlanRec, order: seq<ExecutionId>, t: TaskId)
    ensures t in SuccessTasks(rec, order) <==> HasSuccess(rec, order, t)
    ensures t in TasksSeen(rec, order) <==> HasSuccess(rec, order, t)
  {
    if order != [] {
      var front, last := order[..|order| - 1], order[|order| - 1];
      assert order == front + [last];
      SeenIsSuccess(rec, front, t);
      if HasSuccess(rec, front, t) {
        var x :| x in front && IsSucceeded(rec, x) && rec.executions[x].task == t;
        assert x in order;
      }
      if IsSucceeded(rec, last) && rec.executions[last].task == t {
        assert last in order;
      }
    }
  }

  /** The last successful execution of a task in the order of the list. */
  function LastSeen(rec: PlanRec, order: seq<ExecutionId>, t: TaskId): (r: Option<ExecutionId>) {
    if order == [] then None
    else
      var x := order[|order| - 1];
      if IsSucceeded(rec, x) && rec.executions[x].task == t then Some(x) else LastSeen(rec, order[..|order| - 1], t)
  }

  /** The resource references of the latest successful executions, task by task. */
  function RefsOf(rec: PlanRec, order: seq<ExecutionId>, tasks: seq<TaskId>): seq<string> {
    if tasks == [] then []
    else
      var x := LastSeen(rec, order, tasks[0]);
      (if x.Some? && x.value in rec.executions then rec.executions[x.value].resourceRefs else []) +
      RefsOf(rec, order, tasks[1..])
  }

  /** The k-th execution of the list is the last successful one of its task. */
  predicate IsLastSuccess(rec: PlanRec, order: seq<ExecutionId>, k: int) {
    && 0 <= k < |order| && IsSucceeded(rec, order[k])
    && forall m :: k < m < |order| && IsSucceeded(rec, order[m]) ==>
         rec.executions[order[m]].task != rec.executions[order[k]].task
  }

  /** The reference was reported by the last successful execution of some task. */
  ghost predicate FromLatest(rec: PlanRec, order: seq<ExecutionId>, v: string) {
    exists k :: IsLastSuccess(rec, order, k) && v in rec.executions[order[k]].resourceRefs
  }

  /** The last execution seen for a task is its last successful one. */
  lemma {:induction false} LastSeenIs(rec: PlanRec, order: seq<ExecutionId>, t: TaskId)
    ensures LastSeen(rec, order, t).None? <==> !HasSuccess(rec, order, t)
    ensures LastSeen(rec, order, t).Some? ==>
              exists k :: 0 <= k < |order| && order[k] == LastSeen(rec, order, t).value && IsLastSuccess(rec, order, k)
                          && rec.executions[order[k]].task == t
  {
    if order != [] {
      var n := |order| - 1;
      var front := order[..n];
      assert order == front + [order[n]];
      LastSeenIs(rec, front, t);
      if IsSucceeded(rec, order[n]) && rec.executions[order[n]].task == t {
        assert IsLastSuccess(rec, order, n) && order[n] in order;
      } else {
        if LastSeen(rec, front, t).Some? {
          var k :| 0 <= k < n && front[k] == LastSeen(rec, front, t).value && IsLastSuccess(rec, front, k)
                   && rec.executions[front[k]].task == t;
          forall m | k < m < |order| && IsSucceeded(rec, order[m]) ensures rec.executions[order[m]].task != t {
            assert m < n ==> order[m] == front[m];
          }
          assert IsLastSuccess(rec, order, k) && order[k] in order;
        }
        if HasSuccess(rec, order, t) {
          var x :| x in order && IsSucceeded(rec, x) && rec.executions[x].task == t;
          assert x in front;
        }
      }
    }
  }

  lemma {:induction false} InRefsOf(rec: PlanRec, order: seq<ExecutionId>, tasks: seq<TaskId>, v: string)
    ensures v in RefsOf(rec, order, tasks) <==> exists t :: t in tasks && ReportsFor(rec, order, t, v)
  {
    if tasks != [] {
      InRefsOf(rec, order, tasks[1..], v);
      if t :| t in tasks && ReportsFor(rec, order, t, v) {
        assert t == tasks[0] || t in tasks[1..];
      }
      if v in RefsOf(rec, order, tasks) {
        if v !in RefsOf(rec, order, tasks[1..]) {
          assert tasks[0] in tasks && ReportsFor(rec, order, tasks[0], v);
        } else {
          var t :| t in tasks[1..] && ReportsFor(rec, order, t, v);
          assert t in tasks;
        }
      }
    }
  }

  ghost predicate ReportsFor(rec: PlanRec, order: seq<ExecutionId>, t: TaskId, v: string) {
    var x := LastSeen(rec, order, t);
    x.Some? && x.value in rec.executions && v in rec.executions[x.value].resourceRefs
  }

  lemma RefsAreFromLatest(rec: PlanRec, order: seq<ExecutionId>, v: string)
    ensures v in Dedup(RefsOf(rec, order, TasksSeen(rec, order))) <==> FromLatest(rec, order, v)
  {
    var tasks := TasksSeen(rec, order);
    InRefsOf(rec, order, tasks, v);
    if t :| t in tasks && ReportsFor(rec, order, t, v) {
      LastSeenIs(rec, order, t);
    }
    if FromLatest(rec, order, v) {
      var k :| IsLastSuccess(rec, order, k) && v in rec.executions[order[k]].resourceRefs;
      LatestIsSeen(rec, order, k, v);
    }
  }

  lemma LatestIsSeen(rec: PlanRec, order: seq<ExecutionId>, k: int, v: string)
    requires IsLastSuccess(rec, order, k) && v in rec.executions[order[k]].resourceRefs
    ensures rec.executions[order[k]].task in TasksSeen(rec, order)
    ensures ReportsFor(rec, order, rec.executions[order[k]].task, v)
  {
    var t := rec.executions[order[k]].task;
    SeenIsSuccess(rec, order, t);
    assert order[k] in order;
    LastSeenIs(rec, order, t);
    var m :| 0 <= m < |order| && order[m] == LastSeen(rec, order, t).value && IsLastSuccess(rec, order, m)
             && rec.executions[order[m]].task == t;
    assert m == k;
  }

  ghost predicate TasksCovered(rec: PlanRec, order: seq<ExecutionId>) {
    forall t :: t in TasksSeen(rec, order) <==> t in rec.tasks
  }

  ghost function SnapshotError(rec: Option<PlanRec>, selection: Option<seq<int>>, order: seq<ExecutionId>): Option<AggregationError> {
    if rec.None? || rec.value.status != Completed then Some(NotCompleted)
    else if rec.value.tasks == map[] || !AllSucceeded(rec.value) then Some(TasksNotSucceeded)
    else if !TasksCovered(rec.value, order) then Some(ExecutionsIncomplete)
    else if selection.None? then Some(SelectionMissing)
    else None
  }

  lemma SeenUnique(rec: PlanRec, order: seq<ExecutionId>, t: TaskId, a: Option<ExecutionId>)
    requires a == LastSeen(rec, order, t)
    ensures a.Some? ==> a.value in rec.executions
  {
    if order != [] {
      SeenUnique(rec, order[..|order| - 1], t, LastSeen(rec, order[..|order| - 1], t));
    }
  }

  /** `_load_snapshot`: `order` lists the plan's executions as the query returns them. */
  method LoadSnapshot(rec: Option<PlanRec>, selection: Option<seq<int>>, order: seq<ExecutionId>)
    returns (r: Result<AggregationSnapshot, AggregationError>)
    ensures r.Failure? <==> SnapshotError(rec, selection, order).Some?
    ensures r.Failure? ==> r.error == SnapshotError(rec, selection, order).value
    ensures r.Success? ==>
              && r.value.tasks == Listing(rec.value, rec.value.tasks.Keys)
              && r.value.refs == Dedup(RefsOf(rec.value, order, TasksSeen(rec.value, order)))
              && r.value.chains == selection.value
    ensures r.Success? ==> Distinct(r.value.refs) && forall v :: v in r.value.refs <==> FromLatest(rec.value, order, v)
  {
    if rec.None? || rec.value.status != Completed {
      return Failure(NotCompleted);
    }
    var plan := rec.value;
    var tasks := ListTasks(plan, plan.tasks.Keys);
    if plan.tasks == map[] || exists t :: t in plan.tasks && plan.tasks[t].status != Succeeded {
      return Failure(TasksNotSucceeded);
    }
    var keys, latest := LatestSuccesses(plan, order);
    CoveredKeys(plan, order, latest.Keys);
    if (set t | t in latest) != plan.tasks.Keys {
      return Failure(ExecutionsIncomplete);
    }
    if selection.None? {
      return Failure(SelectionMissing);
    }
    var refs := CollectRefs(plan, order, keys, latest);
    var unique := StableDedup(refs);
    forall v ensures v in unique <==> FromLatest(plan, order, v) {
      RefsAreFromLatest(plan, order, v);
    }
    return Success(AggregationSnapshot(tasks, selection.value, unique));
  }

  /** The latest successful execution of each task, tasks in the order of their first one. */
  method LatestSuccesses(plan: PlanRec, order: seq<ExecutionId>) returns (keys: seq<TaskId>, latest: map<TaskId, ExecutionId>)
    ensures keys == TasksSeen(plan, order) && forall t :: t in latest <==> t in keys
    ensures forall t :: t in keys ==> LastSeen(plan, order, t) == Some(latest[t])
  {
    keys, latest := [], map[];
    var i := 0;
    while i < |order|
      invariant 0 <= i <= |order|
      invariant keys == TasksSeen(plan, order[..i]) && (forall t :: t in latest <==> t in keys)
      invariant forall t :: t in keys ==> LastSeen(plan, order[..i], t) == Some(latest[t])
    {
      assert order[..i + 1][..i] == order[..i] && order[..i + 1][i] == order[i];
      var x := order[i];
      if x in plan.executions && plan.executions[x].status == ExecSucceeded {
        var t := plan.executions[x].task;
        ghost var seen := SuccessTasks(plan, order[..i]);
        assert SuccessTasks(plan, order[..i + 1]) == seen + [t] && (seen + [t])[..|seen|] == seen;
        if t !in latest {
          keys := keys + [t];
        }
        latest := latest[t := x];
      }
      i := i + 1;
    }
    assert order[..i] == order;
  }

  lemma CoveredKeys(rec: PlanRec, order: seq<ExecutionId>, latest: set<TaskId>)
    requires forall t :: t in latest <==> t in TasksSeen(rec, order)
    ensures TasksCovered(rec, order) <==> (set t | t in latest) == rec.tasks.Keys
  {
    assert (set t | t in latest) == latest;
    if TasksCovered(rec, order) {
      assert forall t :: t in latest <==> t in rec.tasks.Keys;
    }
  }

  method CollectRefs(plan: PlanRec, order: seq<ExecutionId>, keys: seq<TaskId>, latest: map<TaskId, ExecutionId>)
    returns (refs: seq<string>)
    requires forall t :: t in keys ==> t in latest && LastSeen(plan, order, t) == Some(latest[t])
    ensures refs == RefsOf(plan, order, keys)
  {
    refs := [];
    var i := 0;
    assert keys[0..] == keys;
    while i < |keys|
      invariant 0 <= i <= |keys|
      invariant refs + RefsOf(plan, order, keys[i..]) == RefsOf(plan, order, keys)
    {
      var t := keys[i];
      assert t in keys && keys[i..][0] == t && keys[i..][1..] == keys[i + 1..];
      SeenUnique(plan, order, t, LastSeen(plan, order, t));
      refs := refs + plan.executions[latest[t]].resourceRefs;
      i := i + 1;
    }
  }

  // ---------- Completed plans pass ----------

  /** Every task of a completed plan has exactly one successful execution: its last attempt. */
  lemma OneSuccess(cfg: Config, rec: PlanRec, t: TaskId) returns (x: ExecutionId)
    requires PlanInv(cfg, rec) && rec.status == Completed && t in rec.tasks
    ensures IsSucceeded(rec, x) && rec.executions[x].task == t && rec.executions[x].attempt == rec.tasks[t].attemptCount
    ensures IsLatest(rec, t, x)
    ensures forall y :: y in rec.executions && rec.executions[y].task == t && y != x ==> Released(rec.executions[y].status)
  {
    assert TaskBounded(cfg, rec.tasks[t]);
    assert HasAttempt(rec, t, rec.tasks[t].attemptCount);
    x :| x in rec.executions && rec.executions[x].task == t && rec.executions[x].attempt == rec.tasks[t].attemptCount;
    forall y | y in rec.executions && rec.executions[y].task == t && y != x ensures Released(rec.executions[y].status) {
      assert rec.executions[y].attempt < rec.tasks[t].attemptCount;
    }
  }

  lemma CompletedCovers(cfg: Config, rec: PlanRec, order: seq<ExecutionId>)
    requires PlanInv(cfg, rec) && rec.status == Completed && forall x :: x in rec.executions ==> x in order
    ensures TasksCovered(rec, order)
  {
    forall t ensures t in TasksSeen(rec, order) <==> t in rec.tasks {
      SeenIsSuccess(rec, order, t);
      if t in rec.tasks {
        var x := OneSuccess(cfg, rec, t);
        assert x in order && IsSucceeded(rec, x);
      }
    }
  }

  /** In every run, a completed plan passes all checks of the aggregation but the one on the selection. */
  lemma CompletedPassesChecks(
    cfg: Config, actions: seq<Action>, p: PlanId, selection: Option<seq<int>>, order: seq<ExecutionId>)
    requires var db := Run(cfg, INITIAL, actions).db;
             && p in db.plans && db.plans[p].status == Completed
             && forall x :: x in db.plans[p].executions ==> x in order
    ensures var db := Run(cfg, INITIAL, actions).db;
            SnapshotError(Some(db.plans[p]), selection, order) == if selection.None? then Some(SelectionMissing) else None
  {
    Reachable(cfg, actions);
    var rec := Run(cfg, INITIAL, actions).db.plans[p];
    assert PlanInv(cfg, rec);
    CompletedCovers(cfg, rec, order);
  }
}
