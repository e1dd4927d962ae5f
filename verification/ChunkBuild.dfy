/**
  The parent and child blocks built from a document: the checks on a build result and the
  rows that a completion stores for it.
 */
module ChunkBuild {
  import opened Common

  datatype ParentData = ParentData(blockIndex: int, content: string)
  datatype ChildData = ChildData(chunkIndex: int, content: string, embeddingText: string)

  /** One entry of `children_by_parent_index`. */
  datatype Group = Group(parentIndex: int, children: seq<ChildData>)

  datatype BuildData = BuildData(parents: seq<ParentData>, groups: seq<Group>)

  /** The groups are the entries of a dictionary, in insertion order: no key occurs twice. */
  type Build = b: BuildData | IsDictionary(b.groups) witness BuildData([], [])

  datatype BuildError = NoParents | DuplicateParent | NoChildren | UnknownParent | DuplicateChunk | BlankText

  datatype ParentRow = ParentRow(id: int, data: ParentData)
  datatype ChildRow = ChildRow(parentId: int, data: ChildData)

  predicate IsDictionary(groups: seq<Group>) {
    forall i, j :: 0 <= i < j < |groups| ==> groups[i].parentIndex != groups[j].parentIndex
  }

  // ---------- Validation ----------

  function ParentIndices(parents: seq<ParentData>): (r: seq<int>)
    ensures |r| == |parents|
  {
    seq(|parents|, i requires 0 <= i < |parents| => parents[i].blockIndex)
  }

  function ChunkIndices(children: seq<ChildData>): (r: seq<int>)
    ensures |r| == |children|
  {
    seq(|children|, i requires 0 <= i < |children| => children[i].chunkIndex)
  }

  /** The characters that `str.strip` removes. */
  predicate IsSpace(c: char) {
    var n := c as int;
    9 <= n <= 13 || 28 <= n <= 32 || n == 0x85 || n == 0xa0 || n == 0x1680 || 0x2000 <= n <= 0x200a ||
    n == 0x2028 || n == 0x2029 || n == 0x202f || n == 0x205f || n == 0x3000
  }

  predicate IsBlank(s: string) {
    forall i :: 0 <= i < |s| ==> IsSpace(s[i])
  }

  predicate HasBlank(children: seq<ChildData>) {
    exists i :: 0 <= i < |children| && IsBlank(children[i].embeddingText)
  }

  predicate GoodGroup(g: Group) {
    Distinct(ChunkIndices(g.children)) && !HasBlank(g.children)
  }

  predicate ParentsKnown(b: Build) {
    forall k :: 0 <= k < |b.groups| ==> b.groups[k].parentIndex in ParentIndices(b.parents)
  }

  /** The checks before the groups are looked at one by one. */
  predicate WellShaped(b: Build) {
    && b.parents != [] && Distinct(ParentIndices(b.parents))
    && ChildCount(b.groups) > 0 && ParentsKnown(b)
  }

  predicate ValidBuild(b: Build) {
    WellShaped(b) && forall k :: 0 <= k < |b.groups| ==> GoodGroup(b.groups[k])
  }

  /** Group k is the first one that fails a check. */
  predicate FirstBad(groups: seq<Group>, k: int) {
    0 <= k < |groups| && !GoodGroup(groups[k]) && forall j :: 0 <= j < k ==> GoodGroup(groups[j])
  }

  function ChildCount(groups: seq<Group>): nat {
    if groups == [] then 0 else ChildCount(groups[..|groups| - 1]) + |groups[|groups| - 1].children|
  }

  /** When the checks end with an outcome. */
  ghost predicate Outcome(b: Build, r: Option<BuildError>) {
    var distinct := b.parents != [] && Distinct(ParentIndices(b.parents));
    match r
    case None => ValidBuild(b)
    case Some(NoParents) => b.parents == []
    case Some(DuplicateParent) => b.parents != [] && !distinct
    case Some(NoChildren) => distinct && ChildCount(b.groups) == 0
    case Some(UnknownParent) => distinct && ChildCount(b.groups) > 0 && !ParentsKnown(b)
    case Some(DuplicateChunk) =>
      WellShaped(b) && exists k :: FirstBad(b.groups, k) && !Distinct(ChunkIndices(b.groups[k].children))
    case Some(BlankText) =>
      WellShaped(b) && exists k :: FirstBad(b.groups, k) && Distinct(ChunkIndices(b.groups[k].children))
  }

  /** The outcomes exclude each other: the condition of an error is exact. */
  lemma OutcomeIsUnique(b: Build, r: Option<BuildError>, q: Option<BuildError>)
    requires Outcome(b, r) && Outcome(b, q)
    ensures r == q
  {
    if WellShaped(b) && !ValidBuild(b) {
      forall j, k | FirstBad(b.groups, j) && FirstBad(b.groups, k) ensures j == k {
      }
    }
  }

  /** No children at all are counted exactly when every group is empty. */
  lemma {:induction false} CountIsZero(groups: seq<Group>)
    ensures ChildCount(groups) == 0 <==> forall k :: 0 <= k < |groups| ==> groups[k].children == []
  {
    if groups != [] {
      var n := |groups| - 1;
      CountIsZero(groups[..n]);
      assert forall k :: 0 <= k < n ==> groups[..n][k] == groups[k];
    }
  }

  method CountChildren(groups: seq<Group>) returns (count: nat)
    ensures count == ChildCount(groups)
  {
    count := 0;
    var i := 0;
    while i < |groups|
      invariant 0 <= i <= |groups| && count == ChildCount(groups[..i])
    {
      assert groups[..i + 1][..i] == groups[..i];
      count := count + |groups[i].children|;
      i := i + 1;
    }
    assert groups[..i] == groups;
  }

  /** `_validate_chunk_build_result`. */
  method Validate(b: Build) returns (r: Option<BuildError>)
    ensures Outcome(b, r)
  {
    if b.parents == [] {
      return Some(NoParents);
    }
    var indices := ParentIndices(b.parents);
    SizeShowsRepetition(indices);
    if |indices| != |Elements(indices)| {
      return Some(DuplicateParent);
    }
    var count := CountChildren(b.groups);
    if count == 0 {
      return Some(NoChildren);
    }
    if exists k :: 0 <= k < |b.groups| && b.groups[k].parentIndex !in indices {
      return Some(UnknownParent);
    }
    r := CheckGroups(b);
  }

  method CheckGroups(b: Build) returns (r: Option<BuildError>)
    requires WellShaped(b)
    ensures Outcome(b, r)
  {
    var i := 0;
    while i < |b.groups|
      invariant 0 <= i <= |b.groups| && forall k :: 0 <= k < i ==> GoodGroup(b.groups[k])
    {
      var indices := ChunkIndices(b.groups[i].children);
      SizeShowsRepetition(indices);
      if |indices| != |Elements(indices)| {
        assert FirstBad(b.groups, i);
        return Some(DuplicateChunk);
      }
      if HasBlank(b.groups[i].children) {
        assert FirstBad(b.groups, i);
        return Some(BlankText);
      }
      i := i + 1;
    }
    return None;
  }

  // ---------- The stored rows ----------

  function ParentRows(parents: seq<ParentData>, first: int): (r: seq<ParentRow>) {
    seq(|parents|, i requires 0 <= i < |parents| => ParentRow(first + i, parents[i]))
  }

  /** The entry of the dictionary for a parent index, empty when there is none. */
  function ChildrenFor(groups: seq<Group>, index: int): seq<ChildData> {
    if groups == [] then []
    else if groups[|groups| - 1].parentIndex == index then groups[|groups| - 1].children
    else ChildrenFor(groups[..|groups| - 1], index)
  }

  /** The last stored parent with a block index. */
  function IdOf(parents: seq<ParentData>, first: int, index: int): (id: int)
    requires index in ParentIndices(parents)
    ensures first <= id < first + |parents| && parents[id - first].blockIndex == index
  {
    var n := |parents| - 1;
    if parents[n].blockIndex == index then first + n
    else
      assert forall i :: 0 <= i < n ==> ParentIndices(parents)[i] == ParentIndices(parents[..n])[i];
      IdOf(parents[..n], first, index)
  }

  function Under(id: int, children: seq<ChildData>): (r: seq<ChildRow>)
    ensures |r| == |children|
  {
    seq(|children|, i requires 0 <= i < |children| => ChildRow(id, children[i]))
  }

  /** The child rows for the first n parents. */
  function ChildRows(b: Build, first: int, n: nat): seq<ChildRow>
    requires n <= |b.parents|
  {
    if n == 0 then []
    else
      var index := b.parents[n - 1].blockIndex;
      assert ParentIndices(b.parents)[n - 1] == index;
      ChildRows(b, first, n - 1) + Under(IdOf(b.parents, first, index), ChildrenFor(b.groups, index))
  }

  /** The children stored under a parent row. */
  function RowsOf(rows: seq<ChildRow>, id: int): seq<ChildData> {
    if rows == [] then []
    else
      var front, last := RowsOf(rows[..|rows| - 1], id), rows[|rows| - 1];
      if last.parentId == id then front + [last.data] else front
  }

  /** The insertion part of `_complete_chunking`. */
  method CreateBlocks(b: Build, first: int) returns (parents: seq<ParentRow>, children: seq<ChildRow>)
    ensures parents == ParentRows(b.parents, first)
    ensures children == ChildRows(b, first, |b.parents|)
  {
    parents := [];
    var ids: map<int, int> := map[];
    var i := 0;
    while i < |b.parents|
      invariant 0 <= i <= |b.parents| && parents == ParentRows(b.parents[..i], first)
      invariant forall x :: x in ids <==> x in ParentIndices(b.parents[..i])
      invariant forall x :: x in ParentIndices(b.parents[..i]) ==> ids[x] == IdOf(b.parents[..i], first, x)
    {
      IdNext(b.parents, first, i);
      parents := parents + [ParentRow(first + i, b.parents[i])];
      ids := ids[b.parents[i].blockIndex := first + i];
      i := i + 1;
    }
    assert b.parents[..i] == b.parents;
    children := [];
    i := 0;
    while i < |b.parents|
      invariant 0 <= i <= |b.parents| && children == ChildRows(b, first, i)
    {
      var index := b.parents[i].blockIndex;
      assert ParentIndices(b.parents)[i] == index;
      var group := ChildrenFor(b.groups, index);
      var j := 0;
      while j < |group|
        invariant 0 <= j <= |group| && children == ChildRows(b, first, i) + Under(ids[index], group[..j])
      {
        children := children + [ChildRow(ids[index], group[j])];
        j := j + 1;
      }
      assert group[..j] == group;
      i := i + 1;
    }
  }

  lemma IdNext(parents: seq<ParentData>, first: int, i: nat)
    requires i < |parents|
    ensures forall x :: x in ParentIndices(parents[..i + 1]) <==> x in ParentIndices(parents[..i]) || x == parents[i].blockIndex
    ensures forall x :: x in ParentIndices(parents[..i + 1]) ==>
              IdOf(parents[..i + 1], first, x) ==
              if x == parents[i].blockIndex then first + i
              else if x in ParentIndices(parents[..i]) then IdOf(parents[..i], first, x) else 0
  {
    var a, b := parents[..i], parents[..i + 1];
    assert b[..i] == a;
    assert ParentIndices(b) == ParentIndices(a) + [parents[i].blockIndex];
  }

  // ---------- Conservation ----------

  lemma {:induction false} RowsOfConcat(a: seq<ChildRow>, b: seq<ChildRow>, id: int)
    ensures RowsOf(a + b, id) == RowsOf(a, id) + RowsOf(b, id)
    decreases |b|
  {
    if b == [] {
      assert a + b == a;
    } else {
      var n := |b| - 1;
      assert (a + b)[..|a + b| - 1] == a + b[..n];
      RowsOfConcat(a, b[..n], id);
    }
  }

  lemma {:induction false} RowsOfUnder(id: int, children: seq<ChildData>, wanted: int)
    ensures RowsOf(Under(id, children), wanted) == if id == wanted then children else []
    decreases |children|
  {
    if children != [] {
      var n := |children| - 1;
      assert Under(id, children)[..n] == Under(id, children[..n]);
      RowsOfUnder(id, children[..n], wanted);
      assert children == children[..n] + [children[n]];
    }
  }

  lemma IdIsPosition(parents: seq<ParentData>, first: int, i: nat)
    requires Distinct(ParentIndices(parents)) && i < |parents|
    ensures parents[i].blockIndex in ParentIndices(parents) && IdOf(parents, first, parents[i].blockIndex) == first + i
  {
    assert ParentIndices(parents)[i] == parents[i].blockIndex;
    var k := IdOf(parents, first, parents[i].blockIndex) - first;
    assert ParentIndices(parents)[k] == ParentIndices(parents)[i];
  }

  /** The last step of the row list, when parent indices do not repeat. */
  lemma LastRows(b: Build, first: int, n: nat)
    requires Distinct(ParentIndices(b.parents)) && 0 < n <= |b.parents|
    ensures ChildRows(b, first, n) ==
            ChildRows(b, first, n - 1) + Under(first + n - 1, ChildrenFor(b.groups, b.parents[n - 1].blockIndex))
  {
    IdIsPosition(b.parents, first, n - 1);
  }

  lemma OneMoreGroup(rows: seq<ChildRow>, id: int, children: seq<ChildData>, wanted: int, next: seq<ChildRow>)
    requires next == rows + Under(id, children)
    ensures id != wanted ==> RowsOf(next, wanted) == RowsOf(rows, wanted)
    ensures id == wanted && RowsOf(rows, wanted) == [] ==> RowsOf(next, wanted) == children
  {
    RowsOfConcat(rows, Under(id, children), wanted);
    RowsOfUnder(id, children, wanted);
  }

  lemma {:induction false} PrefixUnderParent(b: Build, first: int, n: nat, i: nat)
    requires Distinct(ParentIndices(b.parents)) && n <= |b.parents| && i < |b.parents|
    ensures RowsOf(ChildRows(b, first, n), first + i) == if i < n then ChildrenFor(b.groups, b.parents[i].blockIndex) else []
    decreases n
  {
    if n > 0 {
      PrefixUnderParent(b, first, n - 1, i);
      NextUnderParent(b, first, n, i);
    }
  }

  lemma NextUnderParent(b: Build, first: int, n: nat, i: nat)
    requires Distinct(ParentIndices(b.parents)) && 0 < n <= |b.parents| && i < |b.parents|
    ensures var rows := RowsOf(ChildRows(b, first, n - 1), first + i);
            var next := RowsOf(ChildRows(b, first, n), first + i);
            && (i != n - 1 ==> next == rows)
            && (i == n - 1 && rows == [] ==> next == ChildrenFor(b.groups, b.parents[i].blockIndex))
  {
    LastRows(b, first, n);
    var children := ChildrenFor(b.groups, b.parents[n - 1].blockIndex);
    OneMoreGroup(ChildRows(b, first, n - 1), first + n - 1, children, first + i, ChildRows(b, first, n));
  }

  lemma {:induction false} RowsHaveParents(b: Build, first: int, n: nat)
    requires n <= |b.parents|
    ensures forall k :: 0 <= k < |ChildRows(b, first, n)| ==> first <= ChildRows(b, first, n)[k].parentId < first + |b.parents|
    decreases n
  {
    if n > 0 {
      RowsHaveParents(b, first, n - 1);
      assert ParentIndices(b.parents)[n - 1] == b.parents[n - 1].blockIndex;
    }
  }

  lemma {:induction false} ChildrenForKey(groups: seq<Group>, k: nat)
    requires IsDictionary(groups) && k < |groups|
    ensures ChildrenFor(groups, groups[k].parentIndex) == groups[k].children
    decreases |groups|
  {
    var n := |groups| - 1;
    if k < n {
      ChildrenForKey(groups[..n], k);
    }
  }

  /** The children reached from the first n parents. */
  function Reached(b: Build, n: nat): nat
    requires n <= |b.parents|
  {
    if n == 0 then 0 else Reached(b, n - 1) + |ChildrenFor(b.groups, b.parents[n - 1].blockIndex)|
  }

  lemma {:induction false} RowCount(b: Build, first: int, n: nat)
    requires n <= |b.parents|
    ensures |ChildRows(b, first, n)| == Reached(b, n)
    decreases n
  {
    if n > 0 {
      RowCount(b, first, n - 1);
    }
  }

  lemma {:induction false} ReachedNothing(b: Build, n: nat)
    requires n <= |b.parents| && b.groups == []
    ensures Reached(b, n) == 0
    decreases n
  {
    if n > 0 {
      ReachedNothing(b, n - 1);
    }
  }

  /** The last entry is reached once, by the parent with its key. */
  lemma {:induction false} ReachedLast(b: Build, c: Build, n: nat)
    requires Distinct(ParentIndices(b.parents)) && n <= |b.parents| && b.groups != []
    requires c == BuildData(b.parents, b.groups[..|b.groups| - 1])
    ensures Reached(b, n) == Reached(c, n) +
              if b.groups[|b.groups| - 1].parentIndex in ParentIndices(b.parents)[..n] then |b.groups[|b.groups| - 1].children| else 0
    decreases n
  {
    if n > 0 {
      ReachedLast(b, c, n - 1);
      var indices, last := ParentIndices(b.parents), b.groups[|b.groups| - 1];
      assert indices[..n] == indices[..n - 1] + [indices[n - 1]];
      NotAKey(c.groups, last.parentIndex);
      assert forall i :: 0 <= i < n - 1 ==> indices[..n - 1][i] == indices[i];
    }
  }

  lemma {:induction false} NotAKey(groups: seq<Group>, index: int)
    requires forall k :: 0 <= k < |groups| ==> groups[k].parentIndex != index
    ensures ChildrenFor(groups, index) == []
    decreases |groups|
  {
    if groups != [] {
      NotAKey(groups[..|groups| - 1], index);
    }
  }

  /** With distinct parents, a child is lost exactly when its group has no parent. */
  lemma {:induction false} NothingLostIff(b: Build, first: int)
    requires Distinct(ParentIndices(b.parents))
    ensures |ChildRows(b, first, |b.parents|)| <= ChildCount(b.groups)
    ensures |ChildRows(b, first, |b.parents|)| == ChildCount(b.groups) <==>
              forall k :: 0 <= k < |b.groups| ==> b.groups[k].children == [] || b.groups[k].parentIndex in ParentIndices(b.parents)
    decreases |b.groups|
  {
    var n := |b.parents|;
    RowCount(b, first, n);
    if b.groups == [] {
      ReachedNothing(b, n);
    } else {
      var m := |b.groups| - 1;
      var c: Build := BuildData(b.parents, b.groups[..m]);
      NothingLostIff(c, first);
      RowCount(c, first, n);
      ReachedLast(b, c, n);
      assert ParentIndices(b.parents)[..n] == ParentIndices(b.parents);
      assert forall k :: 0 <= k < m ==> c.groups[k] == b.groups[k];
    }
  }

  /** The group of a parent index is stored, in order, under exactly one parent row. */
  ghost predicate StoredUnder(b: Build, first: int, g: Group, rows: seq<ChildRow>) {
    exists i :: 0 <= i < |b.parents| && b.parents[i].blockIndex == g.parentIndex && RowsOf(rows, first + i) == g.children
  }

  /**
    A valid build is stored whole: every group under the parent it was built for, nothing
    under another parent, and as many rows as children.
   */
  lemma StoredExactlyOnce(b: Build, first: int)
    requires ValidBuild(b)
    ensures var rows := ChildRows(b, first, |b.parents|);
            && (forall k :: 0 <= k < |b.groups| ==> StoredUnder(b, first, b.groups[k], rows))
            && (forall i :: 0 <= i < |b.parents| ==> RowsOf(rows, first + i) == ChildrenFor(b.groups, b.parents[i].blockIndex))
            && (forall k :: 0 <= k < |rows| ==> first <= rows[k].parentId < first + |b.parents|)
            && |rows| == ChildCount(b.groups) > 0
  {
    var n := |b.parents|;
    var rows := ChildRows(b, first, n);
    forall i | 0 <= i < n ensures RowsOf(rows, first + i) == ChildrenFor(b.groups, b.parents[i].blockIndex) {
      PrefixUnderParent(b, first, n, i);
    }
    forall k | 0 <= k < |b.groups| ensures StoredUnder(b, first, b.groups[k], rows) {
      ChildrenForKey(b.groups, k);
      var i := IdOf(b.parents, 0, b.groups[k].parentIndex);
      assert b.parents[i].blockIndex == b.groups[k].parentIndex;
    }
    RowsHaveParents(b, first, n);
    NothingLostIff(b, first);
  }
}
