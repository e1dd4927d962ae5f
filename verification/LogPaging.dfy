/**
  Sorting, cutting and resuming: pages over a list of keyed events that may grow between the
  calls.
 */
module LogPaging {
  import opened Common
  import opened IsoTimestamps
  import opened LogRecords

  // ---------- The order of keys ----------

  /** The order of the tuples. */
  predicate KeyLess(a: Key, b: Key) {
    TextLess(a.created, b.created) || (a.created == b.created && (
    TextLess(a.eventId, b.eventId) || (a.eventId == b.eventId && (
    TextLess(a.source, b.source) || (a.source == b.source && (
    TextLess(a.file, b.file) || (a.file == b.file && a.line < b.line)))))))
  }

  /** a comes strictly before b in the direction of the scan. */
  predicate Before(a: Key, b: Key, ascending: bool) {
    if ascending then KeyLess(a, b) else KeyLess(b, a)
  }

  lemma KeyIrreflexive(a: Key)
    ensures !KeyLess(a, a)
  {
    TextIrreflexive(a.created);
    TextIrreflexive(a.eventId);
    TextIrreflexive(a.source);
    TextIrreflexive(a.file);
  }

  lemma TextChain(a: string, b: string, c: string)
    ensures TextLess(a, b) && TextLess(b, c) ==> TextLess(a, c)
  {
    if TextLess(a, b) && TextLess(b, c) {
      TextTransitive(a, b, c);
    }
  }

  lemma KeyTransitive(a: Key, b: Key, c: Key)
    requires KeyLess(a, b) && KeyLess(b, c)
    ensures KeyLess(a, c)
  {
    TextChain(a.created, b.created, c.created);
    TextChain(a.eventId, b.eventId, c.eventId);
    TextChain(a.source, b.source, c.source);
    TextChain(a.file, b.file, c.file);
  }

  lemma KeyTotal(a: Key, b: Key)
    ensures a == b || KeyLess(a, b) || KeyLess(b, a)
  {
    TextTotal(a.created, b.created);
    TextTotal(a.eventId, b.eventId);
    TextTotal(a.source, b.source);
    TextTotal(a.file, b.file);
  }

  lemma BeforeChain(a: Key, b: Key, c: Key, ascending: bool)
    requires Before(a, b, ascending) && (Before(b, c, ascending) || b == c)
    ensures Before(a, c, ascending) && a != c
  {
    KeyIrreflexive(a);
    if b != c {
      if ascending {
        KeyTransitive(a, b, c);
      } else {
        KeyTransitive(c, b, a);
      }
    }
  }

  lemma BeforeTotal(a: Key, b: Key, ascending: bool)
    ensures a == b || Before(a, b, ascending) || Before(b, a, ascending)
  {
    KeyTotal(a, b);
  }

  // ---------- Sorting ----------

  predicate Ordered(s: seq<Indexed>, ascending: bool) {
    forall i, j :: 0 <= i < j < |s| ==> Before(s[i].key, s[j].key, ascending)
  }

  predicate WeaklyOrdered(s: seq<Indexed>, ascending: bool) {
    forall i, j :: 0 <= i < j < |s| ==> s[i].key == s[j].key || Before(s[i].key, s[j].key, ascending)
  }

  /** x goes behind everything that does not come strictly after it: the sort is stable. */
  function Insert(s: seq<Indexed>, x: Indexed, ascending: bool): (r: seq<Indexed>)
    ensures multiset(r) == multiset(s) + multiset{x}
  {
    if s == [] then [x]
    else
      var n := |s| - 1;
      assert s == s[..n] + [s[n]];
      if Before(x.key, s[n].key, ascending) then Insert(s[..n], x, ascending) + [s[n]] else s + [x]
  }

  /** `list.sort` with the key, in either direction. */
  function Sort(s: seq<Indexed>, ascending: bool): (r: seq<Indexed>)
    ensures multiset(r) == multiset(s)
  {
    if s == [] then []
    else
      assert s == s[..|s| - 1] + [s[|s| - 1]];
      Insert(Sort(s[..|s| - 1], ascending), s[|s| - 1], ascending)
  }

  lemma SameElements(a: seq<Indexed>, b: seq<Indexed>)
    requires multiset(a) == multiset(b)
    ensures |a| == |b| && forall x :: x in a <==> x in b
  {
    assert |multiset(a)| == |multiset(b)|;
    forall x ensures x in a <==> x in b {
      assert x in a <==> x in multiset(a);
      assert x in b <==> x in multiset(b);
    }
  }

  lemma {:induction false} InsertOrdered(s: seq<Indexed>, x: Indexed, ascending: bool)
    requires WeaklyOrdered(s, ascending)
    ensures WeaklyOrdered(Insert(s, x, ascending), ascending)
  {
    if s != [] {
      var n := |s| - 1;
      var r := Insert(s, x, ascending);
      if Before(x.key, s[n].key, ascending) {
        var front := Insert(s[..n], x, ascending);
        InsertOrdered(s[..n], x, ascending);
        assert multiset(front) == multiset(s[..n] + [x]);
        SameElements(front, s[..n] + [x]);
        forall i | 0 <= i < |front| ensures r[i].key == s[n].key || Before(r[i].key, s[n].key, ascending) {
          assert r[i] == front[i] && front[i] in front && front[i] in s[..n] + [x];
        }
      } else {
        forall i | 0 <= i < |s| ensures s[i].key == x.key || Before(s[i].key, x.key, ascending) {
          LastIsBehind(s, i, x.key, ascending);
        }
      }
    }
  }

  /** What does not come before the last element does not come before any. */
  lemma LastIsBehind(s: seq<Indexed>, i: int, k: Key, ascending: bool)
    requires WeaklyOrdered(s, ascending) && 0 <= i < |s|
    requires !Before(k, s[|s| - 1].key, ascending)
    ensures s[i].key == k || Before(s[i].key, k, ascending)
  {
    var last := s[|s| - 1].key;
    BeforeTotal(k, last, ascending);
    if Before(s[i].key, last, ascending) {
      BeforeChain(s[i].key, last, k, ascending);
    }
  }

  lemma {:induction false} SortOrders(s: seq<Indexed>, ascending: bool)
    ensures WeaklyOrdered(Sort(s, ascending), ascending)
  {
    if s != [] {
      SortOrders(s[..|s| - 1], ascending);
      InsertOrdered(Sort(s[..|s| - 1], ascending), s[|s| - 1], ascending);
    }
  }

  // ---------- Cutting ----------

  predicate Past(k: Key, after: Option<Key>, ascending: bool) {
    after.None? || Before(after.value, k, ascending)
  }

  /** The events past the cursor. */
  function Beyond(s: seq<Indexed>, after: Option<Key>, ascending: bool): seq<Indexed> {
    if s == [] then []
    else
      var front, last := Beyond(s[..|s| - 1], after, ascending), s[|s| - 1];
      if Past(last.key, after, ascending) then front + [last] else front
  }

  lemma {:induction false} BeyondHolds(s: seq<Indexed>, after: Option<Key>, ascending: bool)
    requires WeaklyOrdered(s, ascending)
    ensures WeaklyOrdered(Beyond(s, after, ascending), ascending)
    ensures forall x :: x in Beyond(s, after, ascending) <==> x in s && Past(x.key, after, ascending)
    ensures DistinctKeys(s) ==> DistinctKeys(Beyond(s, after, ascending))
  {
    if s != [] {
      var n := |s| - 1;
      assert s == s[..n] + [s[n]];
      BeyondHolds(s[..n], after, ascending);
      LastFits(s, Beyond(s[..n], after, ascending), ascending);
      BeyondLast(s, after, ascending);
    }
  }

  lemma BeyondLast(s: seq<Indexed>, after: Option<Key>, ascending: bool)
    requires s != []
    ensures var front, last := Beyond(s[..|s| - 1], after, ascending), s[|s| - 1];
            Beyond(s, after, ascending) == if Past(last.key, after, ascending) then front + [last] else front
  {
  }

  /** The last element fits behind any part of the others. */
  lemma LastFits(s: seq<Indexed>, front: seq<Indexed>, ascending: bool)
    requires s != [] && WeaklyOrdered(s, ascending) && WeaklyOrdered(front, ascending)
    requires forall x :: x in front ==> x in s[..|s| - 1]
    ensures WeaklyOrdered(front + [s[|s| - 1]], ascending)
    ensures DistinctKeys(s) && DistinctKeys(front) ==> DistinctKeys(front + [s[|s| - 1]])
  {
    var n := |s| - 1;
    forall i | 0 <= i < |front|
      ensures front[i].key == s[n].key || Before(front[i].key, s[n].key, ascending)
      ensures DistinctKeys(s) ==> front[i].key != s[n].key
    {
      assert front[i] in front && front[i] in s[..n];
    }
  }

  /** A page and the key to go on from, None when nothing is left. */
  function Page(items: seq<Indexed>, after: Option<Key>, limit: nat, ascending: bool): (seq<Indexed>, Option<Key>)
    requires limit > 0
  {
    Cut(Beyond(Sort(items, ascending), after, ascending), limit)
  }

  function Cut(rest: seq<Indexed>, limit: nat): (seq<Indexed>, Option<Key>)
    requires limit > 0
  {
    if |rest| > limit then (rest[..limit], Some(rest[limit - 1].key)) else (rest, None)
  }

  /** Nothing of the list is skipped before the key of the next page. */
  predicate Covers(items: seq<Indexed>, after: Option<Key>, page: seq<Indexed>, next: Option<Key>, ascending: bool) {
    forall x :: x in items && Past(x.key, after, ascending) ==>
                  x in page || (next.Some? && Before(next.value, x.key, ascending))
  }

  lemma DistinctSorted(items: seq<Indexed>, ascending: bool)
    requires DistinctKeys(items)
    ensures DistinctKeys(Sort(items, ascending))
  {
    var r := Sort(items, ascending);
    SameElements(items, r);
    if i, j :| 0 <= i < j < |r| && r[i].key == r[j].key {
      assert r[i] in items && r[j] in items;
      assert r[i] == r[j];
      TwiceIsTwo(r, i, j);
      assert multiset(items)[r[i]] >= 2;
      NotTwice(items, r[i]);
    }
  }

  lemma TwiceIsTwo(r: seq<Indexed>, i: int, j: int)
    requires 0 <= i < j < |r| && r[i] == r[j]
    ensures multiset(r)[r[i]] >= 2
  {
    assert r == r[..j] + [r[j]] + r[j + 1..];
    assert r[i] == r[..j][i] && r[i] in r[..j];
    assert multiset(r) == multiset(r[..j]) + multiset{r[j]} + multiset(r[j + 1..]);
  }

  lemma {:induction false} NotTwice(items: seq<Indexed>, x: Indexed)
    requires DistinctKeys(items)
    ensures multiset(items)[x] <= 1
  {
    if items != [] {
      var n := |items| - 1;
      NotTwice(items[..n], x);
      assert items == items[..n] + [items[n]];
      forall i | 0 <= i < n ensures items[..n][i] != items[n] {
        assert items[i].key != items[n].key;
      }
    }
  }

  lemma PageHolds(items: seq<Indexed>, after: Option<Key>, limit: nat, ascending: bool)
    requires DistinctKeys(items) && limit > 0
    ensures var (page, next) := Page(items, after, limit, ascending);
            && Ordered(page, ascending) && Covers(items, after, page, next, ascending)
            && (forall x :: x in page ==> x in items && Past(x.key, after, ascending))
            && (next.Some? ==> |page| == limit && next == Some(page[limit - 1].key))
  {
    var sorted := Sort(items, ascending);
    SortOrders(items, ascending);
    DistinctSorted(items, ascending);
    SameElements(items, sorted);
    BeyondHolds(sorted, after, ascending);
    var rest := Beyond(sorted, after, ascending);
    assert Ordered(rest, ascending);
    var (page, next) := Page(items, after, limit, ascending);
    forall x | x in items && Past(x.key, after, ascending)
      ensures x in page || (next.Some? && Before(next.value, x.key, ascending))
    {
      assert x in sorted && x in rest;
      var i :| 0 <= i < |rest| && rest[i] == x;
      if i < |page| {
        assert page[i] == x;
      }
    }
  }

  // ---------- Following the cursor ----------

  /** One call per list, until a page says that nothing is left. */
  function Walk(lists: seq<seq<Indexed>>, after: Option<Key>, limit: nat, ascending: bool): (seq<Indexed>, bool)
    requires limit > 0
  {
    if lists == [] then ([], false)
    else
      var (page, next) := Page(lists[0], after, limit, ascending);
      if next.None? then (page, true)
      else
        var (rest, ended) := Walk(lists[1..], next, limit, ascending);
        (page + rest, ended)
  }

  lemma WalkStep(lists: seq<seq<Indexed>>, after: Option<Key>, limit: nat, ascending: bool, page: seq<Indexed>, next: Option<Key>)
    requires lists != [] && limit > 0 && (page, next) == Page(lists[0], after, limit, ascending)
    ensures Walk(lists, after, limit, ascending) ==
            if next.None? then (page, true)
            else
              var (rest, ended) := Walk(lists[1..], next, limit, ascending);
              (page + rest, ended)
  {
  }

  predicate Within(a: seq<Indexed>, b: seq<Indexed>) {
    forall x :: x in a ==> x in b
  }

  /** The lists only grow, and keys stay unique. */
  predicate Growing(lists: seq<seq<Indexed>>) {
    && (forall i :: 0 <= i < |lists| ==> DistinctKeys(lists[i]))
    && (forall i :: 0 < i < |lists| ==> Within(lists[i - 1], lists[i]))
  }

  lemma {:induction false} FirstWithinLast(lists: seq<seq<Indexed>>)
    requires lists != [] && Growing(lists)
    ensures Within(lists[0], lists[|lists| - 1])
  {
    if |lists| > 1 {
      TailGrows(lists);
      FirstWithinLast(lists[1..]);
      assert Within(lists[1 - 1], lists[1]);
      assert lists[1..][0] == lists[1] && lists[1..][|lists| - 2] == lists[|lists| - 1];
    }
  }

  lemma TailGrows(lists: seq<seq<Indexed>>)
    requires lists != [] && Growing(lists)
    ensures Growing(lists[1..])
  {
    var tail := lists[1..];
    forall i | 0 <= i < |tail| ensures DistinctKeys(tail[i]) {
      assert tail[i] == lists[i + 1];
    }
    forall i | 0 < i < |tail| ensures Within(tail[i - 1], tail[i]) {
      assert tail[i - 1] == lists[i + 1 - 1] && tail[i] == lists[i + 1];
    }
  }

  lemma PagesInOrder(page: seq<Indexed>, rest: seq<Indexed>, after: Option<Key>, next: Key, ascending: bool)
    requires Ordered(page, ascending) && Ordered(rest, ascending) && page != [] && next == page[|page| - 1].key
    requires forall x :: x in page ==> Past(x.key, after, ascending)
    requires forall x :: x in rest ==> Before(next, x.key, ascending)
    ensures Ordered(page + rest, ascending)
    ensures forall x :: x in rest ==> Past(x.key, after, ascending)
  {
    var all := page + rest;
    forall i, j | 0 <= i < j < |all| ensures Before(all[i].key, all[j].key, ascending) {
      if i < |page| <= j {
        assert all[j] == rest[j - |page|] && rest[j - |page|] in rest;
        if i < |page| - 1 {
          BeforeChain(page[i].key, next, all[j].key, ascending);
        }
      }
    }
    forall x | x in rest ensures Past(x.key, after, ascending) {
      assert page[|page| - 1] in page;
      if after.Some? {
        BeforeChain(after.value, next, x.key, ascending);
      }
    }
  }

  /** Pages are disjoint and in order, and every event they hold is one of the last list. */
  lemma {:induction false} WalkIsOrdered(lists: seq<seq<Indexed>>, after: Option<Key>, limit: nat, ascending: bool)
    requires limit > 0 && Growing(lists)
    ensures var events := Walk(lists, after, limit, ascending).0;
            && Ordered(events, ascending) && (forall x :: x in events ==> Past(x.key, after, ascending))
            && (forall x :: x in events ==> lists != [] && x in lists[|lists| - 1])
    decreases |lists|
  {
    if lists != [] {
      var (page, next) := Page(lists[0], after, limit, ascending);
      PageHolds(lists[0], after, limit, ascending);
      FirstWithinLast(lists);
      if next.Some? {
        TailGrows(lists);
        WalkIsOrdered(lists[1..], next, limit, ascending);
        var rest := Walk(lists[1..], next, limit, ascending).0;
        PagesInOrder(page, rest, after, next.value, ascending);
        assert |lists| > 1 ==> lists[1..][|lists| - 2] == lists[|lists| - 1];
      }
    }
  }

  /** Following the cursor to its end returns every event of the first list that is past the start. */
  lemma {:induction false} WalkIsComplete(lists: seq<seq<Indexed>>, after: Option<Key>, limit: nat, ascending: bool, x: Indexed)
    requires limit > 0 && Growing(lists) && Walk(lists, after, limit, ascending).1
    requires x in lists[0] && Past(x.key, after, ascending)
    ensures x in Walk(lists, after, limit, ascending).0
    decreases |lists|
  {
    var (page, next) := Page(lists[0], after, limit, ascending);
    PageHolds(lists[0], after, limit, ascending);
    assert Covers(lists[0], after, page, next, ascending);
    if x !in page {
      TailGrows(lists);
      assert Within(lists[1 - 1], lists[1]);
      WalkIsComplete(lists[1..], next, limit, ascending, x);
    }
  }

  function FullPages(calls: nat, limit: nat): nat {
    if calls == 0 then 0 else limit + FullPages(calls - 1, limit)
  }

  lemma {:induction false} FullPagesTimes(calls: nat, limit: nat)
    ensures FullPages(calls, limit) == calls * limit
    decreases calls
  {
    if calls > 0 {
      FullPagesTimes(calls - 1, limit);
      assert (calls - 1) * limit + limit == calls * limit;
    }
  }

  lemma NextMeansFull(items: seq<Indexed>, after: Option<Key>, limit: nat, ascending: bool)
    requires limit > 0
    ensures Page(items, after, limit, ascending).1.Some? ==> |Page(items, after, limit, ascending).0| == limit
  {
  }

  predicate EndedOrFull(walk: (seq<Indexed>, bool), calls: nat, limit: nat) {
    walk.1 || |walk.0| == FullPages(calls, limit)
  }

  lemma FullAgain(page: seq<Indexed>, rest: (seq<Indexed>, bool), calls: nat, limit: nat)
    requires |page| == limit && EndedOrFull(rest, calls, limit)
    ensures EndedOrFull((page + rest.0, rest.1), calls + 1, limit)
  {
  }

  /** A walk that has not ended has filled every page. */
  lemma {:induction false} UnfinishedIsFull(lists: seq<seq<Indexed>>, after: Option<Key>, limit: nat, ascending: bool)
    requires limit > 0
    ensures EndedOrFull(Walk(lists, after, limit, ascending), |lists|, limit)
    decreases |lists|
  {
    if lists != [] {
      var (page, next) := Page(lists[0], after, limit, ascending);
      NextMeansFull(lists[0], after, limit, ascending);
      WalkStep(lists, after, limit, ascending, page, next);
      if next.Some? {
        UnfinishedIsFull(lists[1..], next, limit, ascending);
        FullAgain(page, Walk(lists[1..], next, limit, ascending), |lists| - 1, limit);
      }
    }
  }

  function KeysOf(s: seq<Indexed>): (r: seq<Key>)
    ensures |r| == |s|
  {
    seq(|s|, i requires 0 <= i < |s| => s[i].key)
  }

  lemma OrderedKeys(s: seq<Indexed>, ascending: bool)
    requires Ordered(s, ascending)
    ensures Distinct(KeysOf(s)) && DistinctKeys(s)
  {
    forall i, j | 0 <= i < j < |s| ensures s[i].key != s[j].key {
      BeforeChain(s[i].key, s[j].key, s[j].key, ascending);
    }
  }

  /** Ordered events out of a list are no more than its different keys. */
  lemma OrderedFits(s: seq<Indexed>, t: seq<Indexed>, ascending: bool)
    requires Ordered(s, ascending) && forall x :: x in s ==> x in t
    ensures |s| <= |t|
    ensures !DistinctKeys(t) ==> |s| < |t|
  {
    OrderedKeys(s, ascending);
    ElementsSize(KeysOf(s));
    SizeShowsRepetition(KeysOf(t));
    forall k | k in Elements(KeysOf(s)) ensures k in Elements(KeysOf(t)) {
      var i :| 0 <= i < |s| && KeysOf(s)[i] == k;
      assert s[i] in s && s[i] in t;
      var j :| 0 <= j < |t| && t[j] == s[i];
      assert KeysOf(t)[j] == k;
    }
    SubsetSize(Elements(KeysOf(s)), Elements(KeysOf(t)));
    if !DistinctKeys(t) {
      var i, j :| 0 <= i < j < |t| && t[i].key == t[j].key;
      assert KeysOf(t)[i] == KeysOf(t)[j];
    }
  }

  /** The cursor is absent after at most one call more than the full pages of the last list. */
  lemma WalkEnds(lists: seq<seq<Indexed>>, limit: nat, ascending: bool)
    requires limit > 0 && Growing(lists) && lists != [] && |lists| * limit > |lists[|lists| - 1]|
    ensures Walk(lists, None, limit, ascending).1
  {
    if !Walk(lists, None, limit, ascending).1 {
      UnfinishedIsFull(lists, None, limit, ascending);
      FullPagesTimes(|lists|, limit);
      WalkIsOrdered(lists, None, limit, ascending);
      OrderedFits(Walk(lists, None, limit, ascending).0, lists[|lists| - 1], ascending);
    }
  }

  // ---------- Repeated keys ----------

  /** The same list on every call. */
  function Repeat(items: seq<Indexed>, calls: nat): (r: seq<seq<Indexed>>)
    ensures |r| == calls && forall i :: 0 <= i < calls ==> r[i] == items
  {
    if calls == 0 then [] else [items] + Repeat(items, calls - 1)
  }

  lemma SinglePage(items: seq<Indexed>, after: Option<Key>, ascending: bool)
    ensures var (page, next) := Page(items, after, 1, ascending);
            && |page| <= 1 && (next.Some? ==> |page| == 1 && next == Some(page[0].key))
            && forall x :: x in page ==> x in items && Past(x.key, after, ascending)
  {
    var sorted := Sort(items, ascending);
    SortOrders(items, ascending);
    SameElements(items, sorted);
    BeyondHolds(sorted, after, ascending);
    var rest := Beyond(sorted, after, ascending);
    forall x | x in Page(items, after, 1, ascending).0 ensures x in rest {
    }
  }

  /** Events of a list that are past a key and in order. */
  predicate OrderedFrom(events: seq<Indexed>, items: seq<Indexed>, after: Option<Key>, ascending: bool) {
    Ordered(events, ascending) && forall x :: x in events ==> x in items && Past(x.key, after, ascending)
  }

  lemma SingleThenRest(items: seq<Indexed>, after: Option<Key>, rest: seq<Indexed>, ascending: bool)
    ensures var (page, next) := Page(items, after, 1, ascending);
            && (next.None? ==> OrderedFrom(page, items, after, ascending))
            && (next.Some? && OrderedFrom(rest, items, next, ascending) ==> OrderedFrom(page + rest, items, after, ascending))
  {
    var (page, next) := Page(items, after, 1, ascending);
    SinglePage(items, after, ascending);
    if next.Some? && OrderedFrom(rest, items, next, ascending) {
      PagesInOrder(page, rest, after, next.value, ascending);
    }
  }

  /** Pages of one event never return a key twice, whatever the list. */
  lemma {:induction false} SinglesAreOrdered(items: seq<Indexed>, calls: nat, after: Option<Key>, ascending: bool)
    ensures OrderedFrom(Walk(Repeat(items, calls), after, 1, ascending).0, items, after, ascending)
    decreases calls
  {
    if calls > 0 {
      var lists := Repeat(items, calls);
      assert lists[1..] == Repeat(items, calls - 1);
      var next := Page(items, after, 1, ascending).1;
      SinglesAreOrdered(items, calls - 1, next, ascending);
      SingleThenRest(items, after, Walk(lists[1..], next, 1, ascending).0, ascending);
    }
  }

  /**
    Over a list that stays the same, following the cursor returns as many events as there
    are, for every page size and direction, exactly when no key occurs twice.
   */
  lemma CompleteIffKeysAreUnique(items: seq<Indexed>)
    ensures DistinctKeys(items) <==> ReturnsAll(items)
  {
    if DistinctKeys(items) {
      forall limit: nat, calls: nat, ascending: bool | limit > 0 && calls * limit > |items|
        ensures AllReturned(items, limit, calls, ascending)
      {
        EnoughCalls(items, limit, calls, ascending);
      }
    } else {
      var n := |items| + 1;
      SinglesAreOrdered(items, n, None, true);
      OrderedFits(Walk(Repeat(items, n), None, 1, true).0, items, true);
      assert n * 1 > |items| && !AllReturned(items, 1, n, true);
    }
  }

  predicate AllReturned(items: seq<Indexed>, limit: nat, calls: nat, ascending: bool)
    requires limit > 0
  {
    |Walk(Repeat(items, calls), None, limit, ascending).0| == |items|
  }

  ghost predicate ReturnsAll(items: seq<Indexed>) {
    forall limit: nat, calls: nat, ascending: bool ::
      limit > 0 && calls * limit > |items| ==> AllReturned(items, limit, calls, ascending)
  }

  lemma EnoughCalls(items: seq<Indexed>, limit: nat, calls: nat, ascending: bool)
    requires DistinctKeys(items) && limit > 0 && calls * limit > |items|
    ensures AllReturned(items, limit, calls, ascending)
  {
    var lists := Repeat(items, calls);
    assert calls > 0;
    assert Growing(lists);
    WalkEnds(lists, limit, ascending);
    WalkIsOrdered(lists, None, limit, ascending);
    var events := Walk(lists, None, limit, ascending).0;
    OrderedFits(events, items, ascending);
    forall x | x in items ensures x in events {
      WalkIsComplete(lists, None, limit, ascending, x);
    }
    DistinctFits(items, events, ascending);
  }

  lemma DistinctFits(items: seq<Indexed>, events: seq<Indexed>, ascending: bool)
    requires DistinctKeys(items) && forall x :: x in items ==> x in events
    ensures |items| <= |events|
  {
    var sorted := Sort(items, ascending);
    SortOrders(items, ascending);
    DistinctSorted(items, ascending);
    SameElements(items, sorted);
    assert Ordered(sorted, ascending);
    OrderedFits(sorted, events, ascending);
  }

  /** Events come in the order of their times; only equal times are told apart by id, then source, file and line. */
  lemma KeyOrderIsLexicographic(a: Key, b: Key)
    ensures a.created != b.created ==> (KeyLess(a, b) <==> TextLess(a.created, b.created))
    ensures a.created == b.created && a.eventId != b.eventId ==> (KeyLess(a, b) <==> TextLess(a.eventId, b.eventId))
    ensures a.created == b.created && a.eventId == b.eventId && a.source != b.source ==>
              (KeyLess(a, b) <==> TextLess(a.source, b.source))
    ensures a.created == b.created && a.eventId == b.eventId && a.source == b.source && a.file != b.file ==>
              (KeyLess(a, b) <==> TextLess(a.file, b.file))
    ensures a.created == b.created && a.eventId == b.eventId && a.source == b.source && a.file == b.file ==>
              (KeyLess(a, b) <==> a.line < b.line)
  {
    TextIrreflexive(a.created);
    TextIrreflexive(a.eventId);
    TextIrreflexive(a.source);
    TextIrreflexive(a.file);
  }
}
