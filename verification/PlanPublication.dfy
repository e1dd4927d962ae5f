/**
  Publication of a planned revision: the drafts in the order of their sequence numbers, the
  verdict of the graph validation, and the rows of the published plan.
 */
module PlanPublication {
  import opened Common
  import opened PlanDag
  import opened WorkflowRows
  import opened PlanLifecycle
  import opened PlanPreservation

  // ---------- Rows in the order of (sequence, id) ----------

  ghost predicate IsFirst(rec: PlanRec, s: set<TaskId>, t: TaskId)
    requires s <= rec.tasks.Keys
  {
    t in s && forall u :: u in s ==> Before(rec, t, u)
  }

  lemma FirstIn(rec: PlanRec, s: set<TaskId>, v: TaskId)
    requires s <= rec.tasks.Keys && v in s
    ensures exists t :: IsFirst(rec, s, t)
  {
    var t := FirstExists(rec, s, v);
    assert IsFirst(rec, s, t);
  }

  /** The tasks of s ordered by sequence number, then by identifier. */
  ghost function Listing(rec: PlanRec, s: set<TaskId>): (l: seq<TaskId>)
    requires s <= rec.tasks.Keys
    ensures forall t :: t in l <==> t in s
    ensures Distinct(l)
    decreases s
  {
    if t :| IsFirst(rec, s, t) then [t] + Listing(rec, s - {t})
    else
      assert forall v :: v !in s by {
        if v :| v in s {
          FirstIn(rec, s, v);
        }
      }
      []
  }

  ghost predicate Ascending(rec: PlanRec, l: seq<TaskId>) {
    && (forall i :: 0 <= i < |l| ==> l[i] in rec.tasks)
    && (forall i, j :: 0 <= i < j < |l| ==> Before(rec, l[i], l[j]))
  }

  lemma {:induction false} ListingAscends(rec: PlanRec, s: set<TaskId>)
    requires s <= rec.tasks.Keys
    ensures Ascending(rec, Listing(rec, s))
    decreases s
  {
    var l := Listing(rec, s);
    if l != [] {
      var t := l[0];
      var rest := Listing(rec, s - {t});
      assert IsFirst(rec, s, t) && l == [t] + rest;
      ListingAscends(rec, s - {t});
      forall i, j | 0 <= i < j < |l| ensures Before(rec, l[i], l[j]) {
        assert l[j] == rest[j - 1] && l[j] in s;
      }
    }
  }

  ghost function DraftIds(rec: PlanRec): (l: seq<TaskId>)
    ensures forall t :: t in l <==> t in rec.tasks && rec.tasks[t].status == TaskDraft
    ensures Distinct(l)
  {
    Listing(rec, set t | t in rec.tasks && rec.tasks[t].status == TaskDraft)
  }

  function DraftOf(rec: PlanRec, t: TaskId): Draft
    requires t in rec.tasks
  {
    Draft(t, rec.tasks[t].ref, rec.tasks[t].dependsOn)
  }

  function DraftsOf(rec: PlanRec, l: seq<TaskId>): (d: seq<Draft>)
    requires forall t :: t in l ==> t in rec.tasks
    ensures |d| == |l| && forall i :: 0 <= i < |l| ==> d[i] == DraftOf(rec, l[i])
  {
    seq(|l|, i requires 0 <= i < |l| => DraftOf(rec, l[i]))
  }

  // ---------- The verdict on the graph ----------

  function GraphOf(drafts: seq<Draft>): (g: Graph)
    requires RefsUnique(drafts)
    ensures IsGraphOf(g, drafts)
  {
    var g := map i | 0 <= i < |drafts| :: drafts[i].ref := drafts[i].dependsOn;
    assert forall r :: r in g ==> KnownRef(drafts, r);
    g
  }

  lemma GraphUnique(drafts: seq<Draft>, g: Graph, h: Graph)
    requires IsGraphOf(g, drafts) && IsGraphOf(h, drafts)
    ensures g == h
  {
    forall r ensures (r in g <==> r in h) && (r in g ==> g[r] == h[r]) {
      if r in g || r in h {
        assert KnownRef(drafts, r);
        var i :| 0 <= i < |drafts| && drafts[i].ref == r;
      }
    }
  }

  ghost predicate HasBadDraft(drafts: seq<Draft>, e: DagError) {
    exists i: nat :: FirstBadDraft(drafts, i, e)
  }

  /** The first error in the order of the checks. */
  ghost function DagVerdict(drafts: seq<Draft>): (r: Option<DagError>) {
    if !RefsUnique(drafts) then Some(RefConflict)
    else if HasBadDraft(drafts, DependencyInvalid) then Some(DependencyInvalid)
    else if HasBadDraft(drafts, DependencyMissing) then Some(DependencyMissing)
    else if HasCycle(GraphOf(drafts)) then Some(DependencyCycle)
    else if HasLongPath(GraphOf(drafts)) then Some(DepthExceeded)
    else None
  }

  lemma SomeBadDraft(drafts: seq<Draft>, n: nat)
    requires n <= |drafts| && (forall e :: !HasBadDraft(drafts, e))
    ensures forall i :: 0 <= i < n ==> DraftError(drafts, drafts[i]) == None
  {
    if n > 0 {
      SomeBadDraft(drafts, n - 1);
      var e := DraftError(drafts, drafts[n - 1]);
      if e.Some? {
        assert FirstBadDraft(drafts, n - 1, e.value);
        assert HasBadDraft(drafts, e.value);
      }
    }
  }

  lemma BadDraftErrors(drafts: seq<Draft>, e: DagError)
    requires HasBadDraft(drafts, e)
    ensures e in {DependencyInvalid, DependencyMissing} && !WellFormed(drafts)
  {
    var i: nat :| FirstBadDraft(drafts, i, e);
    FirstBadUnique(drafts, i, e);
  }

  /** A verdict of None means that the drafts are publishable. */
  lemma VerdictNone(drafts: seq<Draft>)
    requires DagVerdict(drafts) == None
    ensures Publishable(drafts, GraphOf(drafts))
  {
    forall e ensures !HasBadDraft(drafts, e) {
      if HasBadDraft(drafts, e) {
        BadDraftErrors(drafts, e);
      }
    }
    SomeBadDraft(drafts, |drafts|);
  }

  // ---------- Publication ----------

  /** Sequence numbers are 1, 2, ..., n in this order. */
  ghost predicate Contiguous(rec: PlanRec, l: seq<TaskId>) {
    forall i :: 0 <= i < |l| ==> l[i] in rec.tasks && rec.tasks[l[i]].sequence == i + 1
  }

  ghost function EdgeSet(rec: PlanRec, l: seq<TaskId>): (s: set<(TaskId, TaskId)>)
    requires forall t :: t in l ==> t in rec.tasks
  {
    set t, u | t in rec.tasks && u in rec.tasks && IsEdge(DraftsOf(rec, l), t, u) :: (t, u)
  }

  /** Drafts become pending tasks of a ready plan with the given dependency edges. */
  function PublishRows(rec: PlanRec, edges: set<(TaskId, TaskId)>): PlanRec {
    rec.(status := Ready, deps := rec.deps + edges,
         tasks := map t | t in rec.tasks ::
                    if rec.tasks[t].status == TaskDraft then rec.tasks[t].(status := Pending) else rec.tasks[t])
  }

  ghost function Publish(rec: PlanRec): (r: PlanRec) {
    PublishRows(rec, EdgeSet(rec, DraftIds(rec)))
  }

  /** Every reference of a graph without long paths has a depth. */
  lemma DepthExists(g: Graph, r: Ref, bound: nat) returns (d: nat)
    requires r in g && (forall p :: IsPathFrom(g, r, p) ==> |p| <= bound)
    ensures IsDepth(g, r, d)
  {
    if p :| IsPathFrom(g, r, p) && |p| == bound {
      d := bound;
    } else {
      assert IsPathFrom(g, r, [r]);
      d := DepthExists(g, r, bound - 1);
    }
  }

  ghost function DepthOf(g: Graph, r: Ref): (d: nat)
    requires r in g && !HasLongPath(g)
    ensures IsDepth(g, r, d)
  {
    assert exists d: nat :: IsDepth(g, r, d) by {
      var d := DepthExists(g, r, MAX_PLAN_DAG_DEPTH);
    }
    var d: nat :| IsDepth(g, r, d);
    d
  }

  /** A task is strictly deeper than what it depends on. */
  lemma DepthDrops(g: Graph, r: Ref, q: Ref)
    requires !HasLongPath(g) && r in g && q in g[r] && q in g
    ensures DepthOf(g, q) < DepthOf(g, r)
  {
    assert IsDepth(g, q, DepthOf(g, q)) && IsDepth(g, r, DepthOf(g, r));
    var p :| IsPathFrom(g, q, p) && |p| == DepthOf(g, q);
    PathJoin(g, [r], p);
    assert IsPathFrom(g, r, [r] + p);
  }

  lemma EdgeDrops(rec: PlanRec, l: seq<TaskId>, g: Graph, t: TaskId, u: TaskId)
    requires forall v :: v in l ==> v in rec.tasks
    requires Publishable(DraftsOf(rec, l), g) && IsEdge(DraftsOf(rec, l), t, u)
    ensures t in rec.tasks && u in rec.tasks && rec.tasks[t].ref in g && rec.tasks[u].ref in g
    ensures DepthOf(g, rec.tasks[u].ref) < DepthOf(g, rec.tasks[t].ref)
  {
    var drafts := DraftsOf(rec, l);
    var i, j :| 0 <= i < |drafts| && 0 <= j < |drafts| && drafts[i].taskId == t && drafts[j].taskId == u
                && drafts[j].ref in drafts[i].dependsOn;
    assert drafts[i] == DraftOf(rec, l[i]) && drafts[j] == DraftOf(rec, l[j]);
    assert l[i] in l && l[j] in l;
    DepthDrops(g, drafts[i].ref, drafts[j].ref);
  }

  /** Valid drafts give acyclic dependencies: the depth of a task ranks it. */
  lemma EdgesAcyclic(rec: PlanRec, l: seq<TaskId>)
    requires forall v :: v in l ==> v in rec.tasks
    requires DagVerdict(DraftsOf(rec, l)) == None
    ensures Acyclic(EdgeSet(rec, l))
  {
    var g := GraphOf(DraftsOf(rec, l));
    VerdictNone(DraftsOf(rec, l));
    var rank := map t | t in rec.tasks && rec.tasks[t].ref in g :: DepthOf(g, rec.tasks[t].ref);
    forall t, u | (t, u) in EdgeSet(rec, l) ensures t in rank && u in rank && rank[u] < rank[t] {
      EdgeDrops(rec, l, g, t, u);
    }
    assert IsRank(EdgeSet(rec, l), rank);
  }

  /** The drafts may be published as they stand. */
  ghost predicate MayPublish(rec: PlanRec) {
    var l := DraftIds(rec);
    && rec.status == Planning && 1 <= |l| <= MAX_TASKS_PER_PLAN && Contiguous(rec, l)
    && DagVerdict(DraftsOf(rec, l)) == None
  }

  lemma PublishStatus(rec: PlanRec, edges: set<(TaskId, TaskId)>, t: TaskId)
    requires StatusOk(rec) && CurrentOk(rec) && rec.status == Planning && t in rec.tasks
    ensures CurrentOk(PublishRows(rec, edges)) && StatusOk(PublishRows(rec, edges))
  {
    var b := PublishRows(rec, edges);
    assert t in b.tasks && b.tasks[t].status == Pending;
  }

  lemma PublishShape(cfg: Config, rec: PlanRec, edges: set<(TaskId, TaskId)>)
    requires StatusOk(rec) && BoundsOk(cfg, rec) && rec.status == Planning
    ensures var b := PublishRows(rec, edges);
            AttemptsOk(b) && ExecutionsOk(b) && BoundsOk(cfg, b) && HistoryOk(cfg, b) && OrderOk(b)
  {
    var b := PublishRows(rec, edges);
    forall t | t in rec.tasks ensures b.tasks[t].attemptCount == 0 && TaskBounded(cfg, b.tasks[t]) {
      assert TaskBounded(cfg, rec.tasks[t]);
    }
  }

  lemma PublishSequences(rec: PlanRec, edges: set<(TaskId, TaskId)>, l: seq<TaskId>)
    requires SequencesOk(rec) && Contiguous(rec, l) && |l| <= MAX_TASKS_PER_PLAN
    requires forall t :: t in rec.tasks ==> t in l
    ensures SequencesOk(PublishRows(rec, edges))
  {
    forall t | t in rec.tasks ensures 1 <= rec.tasks[t].sequence <= MAX_TASKS_PER_PLAN {
      var i :| 0 <= i < |l| && l[i] == t;
    }
  }

  /** A published plan satisfies the invariant of a running one: in particular its graph can be worked off. */
  lemma PublishKeeps(cfg: Config, rec: PlanRec)
    requires PlanInv(cfg, rec) && MayPublish(rec)
    ensures PlanInv(cfg, Publish(rec)) && Evolves(rec, Publish(rec))
  {
    var l := DraftIds(rec);
    var edges := EdgeSet(rec, l);
    assert l[0] in l;
    PublishStatus(rec, edges, l[0]);
    PublishShape(cfg, rec, edges);
    PublishSequences(rec, edges, l);
    EdgesAcyclic(rec, l);
    PublishDeps(rec, edges);
    PublishEvolves(rec, edges);
  }

  lemma PublishDeps(rec: PlanRec, edges: set<(TaskId, TaskId)>)
    requires rec.deps == {} && Acyclic(edges) && (forall t, u :: (t, u) in edges ==> t in rec.tasks && u in rec.tasks)
    ensures DepsOk(PublishRows(rec, edges))
  {
    assert PublishRows(rec, edges).deps == edges;
  }

  lemma PublishEvolves(rec: PlanRec, edges: set<(TaskId, TaskId)>)
    requires rec.executions == map[] && rec.status == Planning
    ensures Evolves(rec, PublishRows(rec, edges))
  {
  }
}
