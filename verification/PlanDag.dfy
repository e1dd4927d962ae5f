/**
  Validation of the task graph of a draft plan: unique references, known and
  non-repeated dependencies, no cycle, longest dependency chain of at most
  `MAX_PLAN_DAG_DEPTH` tasks.

  Paths are the independent reference: `IsDepth(g, r, d)` says that d is the number of
  tasks on a longest path that starts at r, without mentioning how it is computed.
 */
module PlanDag {
  import opened Common

  type Ref = string
  type TaskId = int
  type Graph = map<Ref, seq<Ref>>

  const MAX_PLAN_DAG_DEPTH: nat := 3

  datatype Draft = Draft(taskId: TaskId, ref: Ref, dependsOn: seq<Ref>)

  datatype DagError = RefConflict | DependencyInvalid | DependencyMissing | DependencyCycle | DepthExceeded

  // ---------- Paths, cycles and depth ----------

  ghost predicate Closed(g: Graph) {
    forall r, q :: r in g && q in g[r] ==> q in g
  }

  ghost predicate IsPath(g: Graph, p: seq<Ref>) {
    && p != []
    && (forall i :: 0 <= i < |p| ==> p[i] in g)
    && (forall i :: 0 < i < |p| ==> p[i] in g[p[i - 1]])
  }

  ghost predicate IsCycle(g: Graph, p: seq<Ref>) {
    IsPath(g, p) && |p| >= 2 && p[0] == p[|p| - 1]
  }

  ghost predicate HasCycle(g: Graph) {
    exists p :: IsCycle(g, p)
  }

  ghost predicate IsPathFrom(g: Graph, r: Ref, p: seq<Ref>) {
    IsPath(g, p) && p[0] == r
  }

  ghost predicate IsDepth(g: Graph, r: Ref, d: nat) {
    && (exists p :: IsPathFrom(g, r, p) && |p| == d)
    && (forall p :: IsPathFrom(g, r, p) ==> |p| <= d)
  }

  ghost predicate HasLongPath(g: Graph) {
    exists p :: IsPath(g, p) && |p| > MAX_PLAN_DAG_DEPTH
  }

  lemma PathTail(g: Graph, p: seq<Ref>)
    requires IsPath(g, p) && |p| >= 2
    ensures IsPath(g, p[1..]) && p[1] in g[p[0]]
  {
    var q := p[1..];
    forall i | 0 < i < |q| ensures q[i] in g[q[i - 1]] {
      assert q[i] == p[i + 1] && q[i - 1] == p[i];
    }
  }

  /** Two paths that meet, the second starting at a successor of the end of the first. */
  lemma PathJoin(g: Graph, p: seq<Ref>, q: seq<Ref>)
    requires IsPath(g, p) && IsPath(g, q) && q[0] in g[p[|p| - 1]]
    ensures IsPath(g, p + q)
  {
    var s := p + q;
    forall i | 0 < i < |s| ensures s[i] in g[s[i - 1]] {
      if i < |p| {
        assert s[i] == p[i] && s[i - 1] == p[i - 1];
      } else if i > |p| {
        assert s[i] == q[i - |p|] && s[i - 1] == q[i - |p| - 1];
      }
    }
  }

  /** Going round a cycle gives paths of every length: no bound on path lengths can hold. */
  lemma {:induction false} CycleUnbounded(g: Graph, c: seq<Ref>, n: nat) returns (p: seq<Ref>)
    requires IsCycle(g, c)
    ensures IsPathFrom(g, c[0], p) && p[|p| - 1] == c[0] && |p| > n
  {
    if n == 0 {
      p := c;
    } else {
      var q := CycleUnbounded(g, c, n - 1);
      PathTail(g, c);
      PathJoin(g, q, c[1..]);
      p := q + c[1..];
    }
  }

  lemma DepthExcludesCycle(g: Graph, c: seq<Ref>, d: nat)
    requires IsCycle(g, c)
    ensures !IsDepth(g, c[0], d)
  {
    var p := CycleUnbounded(g, c, d);
  }

  /** A task is one deeper than its deepest dependency. */
  lemma DepthStep(g: Graph, r: Ref, deepest: nat)
    requires r in g
    requires forall q, p :: q in g[r] && IsPathFrom(g, q, p) ==> |p| <= deepest
    requires deepest == 0 || exists q, p :: q in g[r] && IsPathFrom(g, q, p) && |p| == deepest
    ensures IsDepth(g, r, 1 + deepest)
  {
    if deepest == 0 {
      assert IsPathFrom(g, r, [r]);
    } else {
      var q, p :| q in g[r] && IsPathFrom(g, q, p) && |p| == deepest;
      PathJoin(g, [r], p);
      assert IsPathFrom(g, r, [r] + p);
    }
    forall p | IsPathFrom(g, r, p) ensures |p| <= 1 + deepest {
      if |p| >= 2 {
        PathTail(g, p);
        assert IsPathFrom(g, p[1], p[1..]);
      }
    }
  }

  /** Two depths of one task agree. */
  lemma DepthUnique(g: Graph, r: Ref, d: nat, e: nat)
    requires IsDepth(g, r, d) && IsDepth(g, r, e)
    ensures d == e
  {
    var p :| IsPathFrom(g, r, p) && |p| == d;
    var q :| IsPathFrom(g, r, q) && |q| == e;
  }

  // ---------- What a well-formed list of drafts is ----------

  ghost predicate RefsUnique(drafts: seq<Draft>) {
    forall i, j :: 0 <= i < j < |drafts| ==> drafts[i].ref != drafts[j].ref
  }

  ghost predicate KnownRef(drafts: seq<Draft>, r: Ref) {
    exists i :: 0 <= i < |drafts| && drafts[i].ref == r
  }

  /** The error of one draft on its own, in the order in which the checks are made. */
  ghost function DraftError(drafts: seq<Draft>, d: Draft): (e: Option<DagError>) {
    if !Distinct(d.dependsOn) then Some(DependencyInvalid)
    else if exists r :: r in d.dependsOn && !KnownRef(drafts, r) then Some(DependencyMissing)
    else if d.ref in d.dependsOn then Some(DependencyInvalid)
    else None
  }

  ghost predicate FirstBadDraft(drafts: seq<Draft>, i: nat, e: DagError) {
    && i < |drafts|
    && DraftError(drafts, drafts[i]) == Some(e)
    && forall k :: 0 <= k < i ==> DraftError(drafts, drafts[k]) == None
  }

  ghost predicate WellFormed(drafts: seq<Draft>) {
    RefsUnique(drafts) && forall i :: 0 <= i < |drafts| ==> DraftError(drafts, drafts[i]) == None
  }

  ghost predicate IsGraphOf(g: Graph, drafts: seq<Draft>) {
    && (forall i :: 0 <= i < |drafts| ==> drafts[i].ref in g && g[drafts[i].ref] == drafts[i].dependsOn)
    && (forall r :: r in g ==> KnownRef(drafts, r))
  }

  /** Accepted exactly when references are valid, nothing is circular and no chain is too long. */
  ghost predicate Publishable(drafts: seq<Draft>, g: Graph) {
    WellFormed(drafts) && IsGraphOf(g, drafts) && !HasCycle(g) && !HasLongPath(g)
  }

  /** Pair (t, u) is an edge: the draft of task t names the reference of the draft of task u. */
  ghost predicate IsEdge(drafts: seq<Draft>, t: TaskId, u: TaskId) {
    exists i, j :: 0 <= i < |drafts| && 0 <= j < |drafts| && drafts[i].taskId == t && drafts[j].taskId == u
                   && drafts[j].ref in drafts[i].dependsOn
  }

  lemma WellFormedClosed(drafts: seq<Draft>, g: Graph)
    requires WellFormed(drafts) && IsGraphOf(g, drafts)
    ensures Closed(g)
  {
    forall r, q | r in g && q in g[r] ensures q in g {
      assert KnownRef(drafts, r);
      var i :| 0 <= i < |drafts| && drafts[i].ref == r;
      assert DraftError(drafts, drafts[i]) == None;
      assert KnownRef(drafts, q);
    }
  }

  /** The edges of the first i drafts and of the first k dependencies of the next one. */
  ghost predicate IsEdgeOf(drafts: seq<Draft>, i: nat, k: nat, t: TaskId, u: TaskId) {
    exists a, b, m :: 0 <= a < |drafts| && 0 <= b < |drafts[a].dependsOn| && (a < i || (a == i && b < k))
                      && 0 <= m < |drafts| && drafts[a].taskId == t && drafts[m].taskId == u
                      && drafts[m].ref == drafts[a].dependsOn[b]
  }

  ghost predicate IdsUnique(drafts: seq<Draft>) {
    forall i, j :: 0 <= i < j < |drafts| ==> drafts[i].taskId != drafts[j].taskId
  }

  ghost predicate IsIndex(byRef: map<Ref, TaskId>, drafts: seq<Draft>) {
    && (forall i :: 0 <= i < |drafts| ==> drafts[i].ref in byRef && byRef[drafts[i].ref] == drafts[i].taskId)
    && (forall r :: r in byRef ==> KnownRef(drafts, r))
  }

  lemma NextIndex(byRef: map<Ref, TaskId>, tasks: seq<Draft>, i: nat)
    requires i < |tasks| && RefsUnique(tasks[..i]) && IsIndex(byRef, tasks[..i]) && tasks[i].ref !in byRef
    ensures RefsUnique(tasks[..i + 1]) && IsIndex(byRef[tasks[i].ref := tasks[i].taskId], tasks[..i + 1])
  {
    var before, next := tasks[..i], tasks[..i + 1];
    assert next == before + [tasks[i]];
    forall r | KnownRef(before, r) ensures KnownRef(next, r) {
      var k :| 0 <= k < i && before[k].ref == r;
      assert next[k].ref == r;
    }
    assert next[i].ref == tasks[i].ref;
  }

  function Refs(drafts: seq<Draft>): (s: seq<Ref>)
    ensures |s| == |drafts| && forall i :: 0 <= i < |s| ==> s[i] == drafts[i].ref
  {
    seq(|drafts|, i requires 0 <= i < |drafts| => drafts[i].ref)
  }

  lemma RefsAreKeys(g: Graph, drafts: seq<Draft>)
    requires IsGraphOf(g, drafts)
    ensures forall r :: r in Refs(drafts) <==> r in g
  {
    forall r | r in g ensures r in Refs(drafts) {
      assert KnownRef(drafts, r);
      var i :| 0 <= i < |drafts| && drafts[i].ref == r;
      assert Refs(drafts)[i] == r;
    }
  }

  lemma GraphSnoc(g: Graph, drafts: seq<Draft>, i: nat)
    requires i < |drafts| && RefsUnique(drafts) && IsGraphOf(g, drafts[..i])
    ensures IsGraphOf(g[drafts[i].ref := drafts[i].dependsOn], drafts[..i + 1])
  {
    var h := g[drafts[i].ref := drafts[i].dependsOn];
    forall r | r in h ensures KnownRef(drafts[..i + 1], r) {
      if r == drafts[i].ref {
        assert drafts[..i + 1][i].ref == r;
      } else {
        assert KnownRef(drafts[..i], r);
        var k :| 0 <= k < |drafts[..i]| && drafts[..i][k].ref == r;
        assert drafts[..i + 1][k].ref == r;
      }
    }
  }

  lemma FirstBadUnique(drafts: seq<Draft>, i: nat, e: DagError)
    requires FirstBadDraft(drafts, i, e)
    ensures !WellFormed(drafts) && e in {DependencyInvalid, DependencyMissing}
    ensures forall k: nat, f :: FirstBadDraft(drafts, k, f) ==> f == e
  {
  }

  // ---------- The validator ----------

  /** Meeting a reference that is still being visited closes a cycle on the call stack. */
  lemma CycleOnStack(g: Graph, stack: seq<Ref>, r: Ref)
    requires IsPath(g, stack) && r in g && r in stack && r in g[stack[|stack| - 1]]
    ensures HasCycle(g)
  {
    var i :| 0 <= i < |stack| && stack[i] == r;
    var p := stack[i..];
    forall k | 0 < k < |p| ensures p[k] in g[p[k - 1]] {
      assert p[k] == stack[i + k] && p[k - 1] == stack[i + k - 1];
    }
    PathJoin(g, p, [r]);
    assert IsCycle(g, p + [r]);
  }

  ghost predicate AllDepths(g: Graph, depths: map<Ref, nat>) {
    forall r :: r in depths ==> r in g && IsDepth(g, r, depths[r])
  }

  ghost predicate Extends(old_: map<Ref, nat>, new_: map<Ref, nat>) {
    forall r :: r in old_ ==> r in new_ && new_[r] == old_[r]
  }

  /** d is the greatest depth among the references of s, 0 when there is none. */
  ghost predicate IsMax(depths: map<Ref, nat>, s: seq<Ref>, d: nat) {
    && (forall r :: r in s ==> r in depths && depths[r] <= d)
    && (d == 0 || exists r :: r in s && r in depths && depths[r] == d)
  }

  lemma MaxSnoc(before: map<Ref, nat>, after: map<Ref, nat>, s: seq<Ref>, i: nat, d: nat)
    requires i < |s| && IsMax(before, s[..i], d) && Extends(before, after) && s[i] in after
    ensures IsMax(after, s[..i + 1], if after[s[i]] > d then after[s[i]] else d)
  {
    var t := s[..i + 1];
    assert t == s[..i] + [s[i]];
    if after[s[i]] <= d && d > 0 {
      var q :| q in s[..i] && q in before && before[q] == d;
      assert q in t;
    } else {
      assert s[i] in t;
    }
  }

  lemma DepthOfMax(g: Graph, depths: map<Ref, nat>, r: Ref, d: nat)
    requires r in g && AllDepths(g, depths) && IsMax(depths, g[r], d)
    ensures AllDepths(g, depths[r := 1 + d])
  {
    forall q, p | q in g[r] && IsPathFrom(g, q, p) ensures |p| <= d {
      assert IsDepth(g, q, depths[q]);
    }
    if d > 0 {
      var q :| q in g[r] && q in depths && depths[q] == d;
      assert IsDepth(g, q, d);
      var p :| IsPathFrom(g, q, p) && |p| == d;
    }
    DepthStep(g, r, d);
  }

  /** Once every task has a depth there is no cycle, and the greatest depth is a longest path. */
  lemma DepthIsSettled(g: Graph, before: map<Ref, nat>, depths: map<Ref, nat>, r: Ref, d: nat)
    requires r in g && AllDepths(g, depths) && IsMax(depths, g[r], d) && Extends(before, depths) && r !in before
    ensures AllDepths(g, depths[r := 1 + d]) && Extends(before, depths[r := 1 + d])
  {
    DepthOfMax(g, depths, r, d);
  }

  lemma AllDepthsSettle(g: Graph, depths: map<Ref, nat>, refs: seq<Ref>, deepest: nat)
    requires AllDepths(g, depths) && IsMax(depths, refs, deepest)
    requires forall r :: r in refs <==> r in g
    ensures depths.Keys == g.Keys && !HasCycle(g)
    ensures HasLongPath(g) <==> deepest > MAX_PLAN_DAG_DEPTH
  {
    forall c | IsCycle(g, c) ensures false {
      assert c[0] in depths;
      DepthExcludesCycle(g, c, depths[c[0]]);
    }
    forall p | IsPath(g, p) ensures |p| <= deepest {
      assert p[0] in depths && IsPathFrom(g, p[0], p);
    }
    if deepest > 0 {
      var r :| r in refs && r in depths && depths[r] == deepest;
      assert IsDepth(g, r, deepest);
      var p :| IsPathFrom(g, r, p) && |p| == deepest;
      assert IsPath(g, p);
    }
  }

  lemma ChainPath(g: Graph, stack: seq<Ref>, r: Ref)
    requires r in g && (stack != [] ==> IsPath(g, stack) && r in g[stack[|stack| - 1]])
    ensures IsPath(g, stack + [r])
    ensures Elements(stack + [r]) == Elements(stack) + {r}
  {
    if stack != [] {
      PathJoin(g, stack, [r]);
    }
  }

  /** The edge for the next dependency is new, when task ids are unique. */
  lemma NextEdge(tasks: seq<Draft>, byRef: map<Ref, TaskId>, i: nat, k: nat)
    requires WellFormed(tasks) && IsIndex(byRef, tasks) && i < |tasks| && k < |tasks[i].dependsOn|
    ensures tasks[i].dependsOn[k] in byRef
    ensures forall t, u :: IsEdgeOf(tasks, i, k + 1, t, u) <==>
              IsEdgeOf(tasks, i, k, t, u) || (t == tasks[i].taskId && u == byRef[tasks[i].dependsOn[k]])
    ensures IdsUnique(tasks) ==> !IsEdgeOf(tasks, i, k, tasks[i].taskId, byRef[tasks[i].dependsOn[k]])
  {
    var refs := tasks[i].dependsOn;
    assert DraftError(tasks, tasks[i]) == None;
    assert KnownRef(tasks, refs[k]);
    var m :| 0 <= m < |tasks| && tasks[m].ref == refs[k];
    var v := byRef[refs[k]];
    assert v == tasks[m].taskId;
    forall t, u ensures IsEdgeOf(tasks, i, k + 1, t, u) <==> IsEdgeOf(tasks, i, k, t, u) || (t == tasks[i].taskId && u == v) {
      if t == tasks[i].taskId && u == v {
        assert tasks[m].ref == tasks[i].dependsOn[k];
      }
    }
    if IdsUnique(tasks) && IsEdgeOf(tasks, i, k, tasks[i].taskId, v) {
      EdgeRepeats(tasks, i, k, m);
    }
  }

  lemma EdgeRepeats(tasks: seq<Draft>, i: nat, k: nat, m: nat)
    requires i < |tasks| && k < |tasks[i].dependsOn| && m < |tasks| && tasks[m].ref == tasks[i].dependsOn[k]
    requires IdsUnique(tasks) && IsEdgeOf(tasks, i, k, tasks[i].taskId, tasks[m].taskId)
    ensures !Distinct(tasks[i].dependsOn)
  {
    var a, b, c :| 0 <= a < |tasks| && 0 <= b < |tasks[a].dependsOn| && (a < i || (a == i && b < k))
                   && 0 <= c < |tasks| && tasks[a].taskId == tasks[i].taskId && tasks[c].taskId == tasks[m].taskId
                   && tasks[c].ref == tasks[a].dependsOn[b];
    assert a == i && c == m;
    assert tasks[i].dependsOn[b] == tasks[i].dependsOn[k];
  }

  class DagValidator {
    var graph: Graph
    var depths: map<Ref, nat>
    var visiting: set<Ref>

    constructor ()
      ensures graph == map[] && depths == map[] && visiting == {}
    {
      graph, depths, visiting := map[], map[], {};
    }

    /** `stack` is the chain of calls in progress; it lists exactly the references in `visiting`. */
    ghost predicate Stacked(stack: seq<Ref>, ref: Ref)
      reads this
    {
      && visiting == Elements(stack)
      && visiting <= graph.Keys
      && ref in graph
      && (stack != [] ==> IsPath(graph, stack) && ref in graph[stack[|stack| - 1]])
    }

    method Depth(ref: Ref, ghost stack: seq<Ref>) returns (r: Result<nat, DagError>)
      requires Closed(graph) && Stacked(stack, ref) && AllDepths(graph, depths)
      modifies this`depths, this`visiting
      ensures AllDepths(graph, depths) && Extends(old(depths), depths)
      ensures r.Success? ==> visiting == old(visiting) && ref in depths && depths[ref] == r.value
      ensures r.Failure? ==> r.error == DependencyCycle && HasCycle(graph)
      decreases graph.Keys - visiting
    {
      if ref in depths {
        return Success(depths[ref]);
      }
      if ref in visiting {
        CycleOnStack(graph, stack, ref);
        return Failure(DependencyCycle);
      }
      visiting := visiting + {ref};
      var predecessors := graph[ref];
      var deepest: nat := 0;
      var i := 0;
      ghost var chain := stack + [ref];
      ChainPath(graph, stack, ref);
      while i < |predecessors|
        invariant 0 <= i <= |predecessors|
        invariant visiting == old(visiting) + {ref} == Elements(chain)
        invariant AllDepths(graph, depths) && Extends(old(depths), depths)
        invariant IsMax(depths, predecessors[..i], deepest)
      {
        ghost var before := depths;
        var d := Depth(predecessors[i], chain);
        if d.Failure? {
          return d;
        }
        MaxSnoc(before, depths, predecessors, i, deepest);
        if d.value > deepest {
          deepest := d.value;
        }
        i := i + 1;
      }
      assert predecessors[..i] == predecessors;
      visiting := visiting - {ref};
      DepthIsSettled(graph, old(depths), depths, ref, deepest);
      depths := depths[ref := 1 + deepest];
      return Success(1 + deepest);
    }

    /** The first pass: references are unique. */
    method IndexByRef(tasks: seq<Draft>) returns (byRef: map<Ref, TaskId>, unique: bool)
      ensures unique <==> RefsUnique(tasks)
      ensures unique ==> IsIndex(byRef, tasks)
    {
      byRef := map[];
      var i := 0;
      while i < |tasks|
        invariant 0 <= i <= |tasks|
        invariant RefsUnique(tasks[..i]) && IsIndex(byRef, tasks[..i])
      {
        if tasks[i].ref in byRef {
          var k :| 0 <= k < i && tasks[..i][k].ref == tasks[i].ref;
          return byRef, false;
        }
        NextIndex(byRef, tasks, i);
        byRef := byRef[tasks[i].ref := tasks[i].taskId];
        i := i + 1;
      }
      assert tasks[..i] == tasks;
      return byRef, true;
    }

    /** The second pass: each task's dependencies on their own. */
    method BuildGraph(tasks: seq<Draft>, byRef: map<Ref, TaskId>) returns (r: Option<DagError>)
      requires graph == map[] && RefsUnique(tasks) && IsIndex(byRef, tasks)
      modifies this`graph
      ensures r.None? <==> WellFormed(tasks)
      ensures r.None? ==> IsGraphOf(graph, tasks)
      ensures r.Some? ==> exists i: nat :: FirstBadDraft(tasks, i, r.value)
    {
      var i := 0;
      while i < |tasks|
        invariant 0 <= i <= |tasks|
        invariant forall k :: 0 <= k < i ==> DraftError(tasks, tasks[k]) == None
        invariant IsGraphOf(graph, tasks[..i])
      {
        var refs := tasks[i].dependsOn;
        assert forall q :: q in byRef <==> KnownRef(tasks, q);
        if !Distinct(refs) {
          assert FirstBadDraft(tasks, i, DependencyInvalid);
          return Some(DependencyInvalid);
        }
        if exists q :: q in refs && q !in byRef {
          assert FirstBadDraft(tasks, i, DependencyMissing);
          return Some(DependencyMissing);
        }
        if tasks[i].ref in refs {
          assert FirstBadDraft(tasks, i, DependencyInvalid);
          return Some(DependencyInvalid);
        }
        GraphSnoc(graph, tasks, i);
        graph := graph[tasks[i].ref := refs];
        i := i + 1;
      }
      assert tasks[..i] == tasks;
      return None;
    }

    /** The third pass: the deepest chain over all tasks, or the cycle that prevents it. */
    method DeepestChain(tasks: seq<Draft>) returns (r: Result<nat, DagError>)
      requires Closed(graph) && IsGraphOf(graph, tasks) && depths == map[] && visiting == {}
      modifies this`depths, this`visiting
      ensures r.Failure? ==> r.error == DependencyCycle && HasCycle(graph)
      ensures r.Success? ==> !HasCycle(graph) && depths.Keys == graph.Keys && AllDepths(graph, depths)
      ensures r.Success? ==> (HasLongPath(graph) <==> r.value > MAX_PLAN_DAG_DEPTH)
    {
      var deepest: nat := 0;
      var i := 0;
      ghost var refs := Refs(tasks);
      while i < |tasks|
        invariant 0 <= i <= |tasks|
        invariant visiting == {} && AllDepths(graph, depths)
        invariant IsMax(depths, refs[..i], deepest)
      {
        ghost var before := depths;
        var d := Depth(tasks[i].ref, []);
        if d.Failure? {
          return d;
        }
        MaxSnoc(before, depths, refs, i, deepest);
        if d.value > deepest {
          deepest := d.value;
        }
        i := i + 1;
      }
      assert refs[..i] == refs;
      RefsAreKeys(graph, tasks);
      AllDepthsSettle(graph, depths, refs, deepest);
      return Success(deepest);
    }

    method Validate(tasks: seq<Draft>) returns (r: Result<seq<(TaskId, TaskId)>, DagError>)
      requires graph == map[] && depths == map[] && visiting == {}
      modifies this
      ensures r == Failure(RefConflict) <==> !RefsUnique(tasks)
      ensures forall e :: e in {DependencyInvalid, DependencyMissing} ==>
        (r == Failure(e) <==> RefsUnique(tasks) && exists i: nat :: FirstBadDraft(tasks, i, e))
      ensures WellFormed(tasks) ==> IsGraphOf(graph, tasks)
      ensures r == Failure(DependencyCycle) <==> WellFormed(tasks) && HasCycle(graph)
      ensures r == Failure(DepthExceeded) <==> WellFormed(tasks) && !HasCycle(graph) && HasLongPath(graph)
      ensures r.Success? <==> Publishable(tasks, graph)
      ensures r.Success? ==> depths.Keys == graph.Keys && AllDepths(graph, depths)
      ensures r.Success? ==> forall t, u :: (t, u) in r.value <==> IsEdge(tasks, t, u)
      ensures r.Success? && IdsUnique(tasks) ==> Distinct(r.value)
    {
      var byRef, unique := IndexByRef(tasks);
      if !unique {
        return Failure(RefConflict);
      }
      var bad := BuildGraph(tasks, byRef);
      if bad.Some? {
        ghost var i: nat :| FirstBadDraft(tasks, i, bad.value);
        FirstBadUnique(tasks, i, bad.value);
        return Failure(bad.value);
      }
      WellFormedClosed(tasks, graph);
      var deepest := DeepestChain(tasks);
      if deepest.Failure? {
        return Failure(deepest.error);
      }
      if deepest.value > MAX_PLAN_DAG_DEPTH {
        return Failure(DepthExceeded);
      }
      var pairs := EdgePairs(tasks, byRef);
      return Success(pairs);
    }

    /** The edges as pairs of task identifiers, task by task in the order of the drafts. */
    method EdgePairs(tasks: seq<Draft>, byRef: map<Ref, TaskId>) returns (pairs: seq<(TaskId, TaskId)>)
      requires WellFormed(tasks) && IsIndex(byRef, tasks)
      ensures forall t, u :: (t, u) in pairs <==> IsEdge(tasks, t, u)
      ensures IdsUnique(tasks) ==> Distinct(pairs)
    {
      pairs := [];
      var i := 0;
      while i < |tasks|
        invariant 0 <= i <= |tasks| && EdgesUpTo(pairs, tasks, i, 0)
      {
        pairs := EdgesOfTask(tasks, byRef, i, pairs);
        i := i + 1;
      }
    }

    /** The edges of one task, behind those found so far. */
    method EdgesOfTask(tasks: seq<Draft>, byRef: map<Ref, TaskId>, i: nat, before: seq<(TaskId, TaskId)>)
      returns (pairs: seq<(TaskId, TaskId)>)
      requires WellFormed(tasks) && IsIndex(byRef, tasks) && i < |tasks| && EdgesUpTo(before, tasks, i, 0)
      ensures EdgesUpTo(pairs, tasks, i + 1, 0)
    {
      pairs := before;
      var refs := tasks[i].dependsOn;
      var k := 0;
      while k < |refs|
        invariant 0 <= k <= |refs| && EdgesUpTo(pairs, tasks, i, k)
      {
        AddEdge(pairs, tasks, byRef, i, k);
        pairs := pairs + [(tasks[i].taskId, byRef[refs[k]])];
        k := k + 1;
      }
      TaskIsDone(pairs, tasks, i);
    }
  }

  /** The pairs are the edges found so far, each once. */
  ghost predicate EdgesUpTo(pairs: seq<(TaskId, TaskId)>, tasks: seq<Draft>, i: nat, k: nat) {
    && (forall t, u :: (t, u) in pairs <==> IsEdgeOf(tasks, i, k, t, u))
    && (IdsUnique(tasks) ==> Distinct(pairs))
  }

  lemma AddEdge(pairs: seq<(TaskId, TaskId)>, tasks: seq<Draft>, byRef: map<Ref, TaskId>, i: nat, k: nat)
    requires WellFormed(tasks) && IsIndex(byRef, tasks) && i < |tasks| && k < |tasks[i].dependsOn|
    requires EdgesUpTo(pairs, tasks, i, k)
    ensures tasks[i].dependsOn[k] in byRef
    ensures EdgesUpTo(pairs + [(tasks[i].taskId, byRef[tasks[i].dependsOn[k]])], tasks, i, k + 1)
  {
    NextEdge(tasks, byRef, i, k);
    var e := (tasks[i].taskId, byRef[tasks[i].dependsOn[k]]);
    forall t, u ensures (t, u) in pairs + [e] <==> IsEdgeOf(tasks, i, k + 1, t, u) {
      assert (t, u) in pairs + [e] <==> (t, u) in pairs || (t, u) == e;
    }
  }

  lemma TaskIsDone(pairs: seq<(TaskId, TaskId)>, tasks: seq<Draft>, i: nat)
    requires i < |tasks| && EdgesUpTo(pairs, tasks, i, |tasks[i].dependsOn|)
    ensures EdgesUpTo(pairs, tasks, i + 1, 0)
  {
    forall t, u ensures IsEdgeOf(tasks, i, |tasks[i].dependsOn|, t, u) <==> IsEdgeOf(tasks, i + 1, 0, t, u) {
    }
  }
}
