/**
  The hot queue of a context chain in Redis: a list of keys, a hash of items and a version.
  Refreshes and warm-ups reach it late, in any order, repeatedly or not at all; what it holds
  for a version is still a slice of the most recently used resources at that version.
 */
module ResourceCache {
  import opened Common
  import opened ContextFacts

  datatype Item = Item(key: Key, data: Data, turn: ContextFacts.TurnId, seenAt: int)

  datatype Redis = Redis(list: seq<Key>, data: map<Key, Item>, version: Option<nat>)

  const EMPTY: Redis := Redis([], map[], None)

  /** A refresh that was prepared by a committed update. */
  datatype Message = Message(items: seq<Item>, removed: seq<Key>, expected: nat, version: nat)

  function ItemOf(k: Key, row: Row): Item {
    Item(k, row.data, row.lastTurn, row.lastSeen)
  }

  // ---------- Lists of keys ----------

  /** The elements of l that are not in s, in order. */
  function Except(l: seq<Key>, s: set<Key>): (r: seq<Key>)
    ensures forall k :: k in r <==> k in l && k !in s
    ensures |r| <= |l|
  {
    if l == [] then []
    else
      var front, last := Except(l[..|l| - 1], s), l[|l| - 1];
      assert l == l[..|l| - 1] + [last];
      if last in s then front else front + [last]
  }

  lemma {:induction false} ExceptDistinct(l: seq<Key>, s: set<Key>)
    requires Distinct(l)
    ensures Distinct(Except(l, s))
  {
    if l != [] {
      var front := l[..|l| - 1];
      ExceptDistinct(front, s);
      assert l[|l| - 1] !in front;
    }
  }

  lemma {:induction false} ExceptAppend(a: seq<Key>, b: seq<Key>, s: set<Key>)
    ensures Except(a + b, s) == Except(a, s) + Except(b, s)
  {
    if b == [] {
      assert a + b == a;
    } else {
      var front := b[..|b| - 1];
      ExceptAppend(a, front, s);
      assert (a + b)[..|a + b| - 1] == a + front;
    }
  }

  lemma {:induction false} ExceptTwice(l: seq<Key>, s: set<Key>, t: set<Key>)
    ensures Except(Except(l, s), t) == Except(l, s + t)
  {
    if l != [] {
      var front, last := l[..|l| - 1], l[|l| - 1];
      ExceptTwice(front, s, t);
      if last !in s {
        ExceptAppend(Except(front, s), [last], t);
      }
    }
  }

  lemma {:induction false} ExceptNone(l: seq<Key>, s: set<Key>)
    requires forall k :: k in l ==> k !in s
    ensures Except(l, s) == l
  {
    if l != [] {
      ExceptNone(l[..|l| - 1], s);
    }
  }

  // ---------- The scripts ----------

  function Keys(items: seq<Item>): (s: seq<Key>)
    ensures |s| == |items| && forall i :: 0 <= i < |s| ==> s[i] == items[i].key
  {
    seq(|items|, i requires 0 <= i < |items| => items[i].key)
  }

  /** LREM 0 and RPUSH for every item */
  function PushAll(l: seq<Key>, keys: seq<Key>): seq<Key> {
    if keys == [] then l else Except(PushAll(l, keys[..|keys| - 1]), {keys[|keys| - 1]}) + [keys[|keys| - 1]]
  }

  /** LREM 0 for every removed key */
  function DropAll(l: seq<Key>, keys: seq<Key>): seq<Key> {
    if keys == [] then l else Except(DropAll(l, keys[..|keys| - 1]), {keys[|keys| - 1]})
  }

  function PutAll(data: map<Key, Item>, items: seq<Item>): map<Key, Item> {
    if items == [] then data else PutAll(data, items[..|items| - 1])[items[|items| - 1].key := items[|items| - 1]]
  }

  /** How many keys are popped from the head. */
  function Excess(l: seq<Key>, capacity: nat): (n: nat)
    ensures n <= |l|
  {
    if |l| > capacity then |l| - capacity else 0
  }

  predicate Applies(r: Redis, m: Message) {
    r.version == Some(m.expected) || (r.version.None? && m.expected == 0)
  }

  /** `REFRESH_QUEUE_LUA` */
  function RefreshQueue(capacity: nat, r: Redis, m: Message): (next: (Redis, bool)) {
    if !Applies(r, m) then (r, false)
    else
      var l := DropAll(PushAll(r.list, Keys(m.items)), m.removed);
      var n := Excess(l, capacity);
      var data := PutAll(r.data, m.items) - Elements(m.removed) - Elements(l[..n]);
      (Redis(l[n..], data, Some(m.version)), true)
  }

  /** `REPLACE_QUEUE_LUA` on the last `capacity` items */
  function ReplaceQueue(capacity: nat, items: seq<Item>, version: nat): Redis {
    var last := items[Excess(Keys(items), capacity)..];
    Redis(Keys(last), PutAll(map[], last), Some(version))
  }

  /** `get`: a hit for the expected version, or None. */
  function GetQueue(capacity: nat, r: Redis, expected: nat): (hit: Option<seq<Item>>) {
    if r.version != Some(expected) then None
    else if r.list == [] then Some([])
    else if |r.list| > capacity then None
    else if exists i :: 0 <= i < |r.list| && !(r.list[i] in r.data && r.data[r.list[i]].key == r.list[i]) then None
    else Some(seq(|r.list|, i requires 0 <= i < |r.list| => r.data[r.list[i]]))
  }

  lemma PushStep(l: seq<Key>, front: seq<Key>, last: Key)
    requires last !in front
    ensures Except(Except(l, Elements(front)) + front, {last}) + [last] ==
            Except(l, Elements(front) + {last}) + (front + [last])
  {
    ExceptAppend(Except(l, Elements(front)), front, {last});
    ExceptTwice(l, Elements(front), {last});
    ExceptNone(front, {last});
  }

  lemma ElementsSnoc(front: seq<Key>, last: Key)
    ensures Elements(front + [last]) == Elements(front) + {last}
  {
  }

  lemma {:induction false} PushAllIs(l: seq<Key>, keys: seq<Key>)
    requires Distinct(keys)
    ensures PushAll(l, keys) == Except(l, Elements(keys)) + keys
  {
    if keys == [] {
      ExceptNone(l, Elements(keys));
    } else {
      var front, last := keys[..|keys| - 1], keys[|keys| - 1];
      assert keys == front + [last];
      PushAllIs(l, front);
      PushStep(l, front, last);
      ElementsSnoc(front, last);
    }
  }

  lemma {:induction false} DropAllIs(l: seq<Key>, keys: seq<Key>)
    ensures DropAll(l, keys) == Except(l, Elements(keys))
  {
    if keys == [] {
      ExceptNone(l, Elements(keys));
    } else {
      var front, last := keys[..|keys| - 1], keys[|keys| - 1];
      assert keys == front + [last];
      DropAllIs(l, front);
      ExceptTwice(l, Elements(front), {last});
      ElementsSnoc(front, last);
    }
  }

  /** The list after a refresh, before it is trimmed: the untouched keys, then the refreshed ones. */
  lemma RefreshedList(l: seq<Key>, keys: seq<Key>, removed: seq<Key>)
    requires Distinct(keys) && forall k :: k in keys ==> k !in removed
    ensures DropAll(PushAll(l, keys), removed) == Except(l, Elements(keys) + Elements(removed)) + keys
  {
    PushAllIs(l, keys);
    DropAllIs(PushAll(l, keys), removed);
    ExceptAppend(Except(l, Elements(keys)), keys, Elements(removed));
    ExceptTwice(l, Elements(keys), Elements(removed));
    ExceptNone(keys, Elements(removed));
  }

  lemma {:induction false} PutAllIs(data: map<Key, Item>, items: seq<Item>)
    requires Distinct(Keys(items))
    ensures PutAll(data, items).Keys == data.Keys + Elements(Keys(items))
    ensures forall i :: 0 <= i < |items| ==> PutAll(data, items)[items[i].key] == items[i]
    ensures forall k :: k in data && k !in Keys(items) ==> PutAll(data, items)[k] == data[k]
  {
    if items != [] {
      var front, last := items[..|items| - 1], items[|items| - 1];
      assert Keys(items) == Keys(front) + [last.key];
      assert Distinct(Keys(front)) && last.key !in Keys(front);
      PutAllIs(data, front);
      forall i | 0 <= i < |items| ensures PutAll(data, items)[items[i].key] == items[i] {
        if i < |front| {
          assert items[i] == front[i] && Keys(front)[i] == front[i].key;
        }
      }
    }
  }

  // ---------- A faithful slice of the facts ----------

  type Facts = map<Key, Row>

  ghost predicate Live(facts: Facts, k: Key) {
    k in facts && facts[k].active
  }

  ghost predicate Sorted(facts: Facts, l: seq<Key>) {
    && (forall i :: 0 <= i < |l| ==> l[i] in facts)
    && (forall i, j :: 0 <= i < j < |l| ==> facts[l[i]].lastSeen <= facts[l[j]].lastSeen)
  }

  /** No live resource outside the list has been seen later than one inside. */
  ghost predicate MostRecent(facts: Facts, l: seq<Key>) {
    forall k, i :: Live(facts, k) && k !in l && 0 <= i < |l| && l[i] in facts ==> facts[k].lastSeen <= facts[l[i]].lastSeen
  }

  /** The list is a slice of the most recently used live resources, oldest first. */
  ghost predicate Slice(facts: Facts, l: seq<Key>) {
    Distinct(l) && (forall k :: k in l ==> Live(facts, k)) && Sorted(facts, l) && MostRecent(facts, l)
  }

  ghost predicate DataIs(facts: Facts, l: seq<Key>, data: map<Key, Item>) {
    data.Keys == Elements(l) && forall k :: k in l ==> k in facts && data[k] == ItemOf(k, facts[k])
  }

  /** The queue is bounded, its list and hash agree, and they hold the facts. */
  ghost predicate Faithful(capacity: nat, facts: Facts, r: Redis) {
    |r.list| <= capacity && Slice(facts, r.list) && DataIs(facts, r.list, r.data)
  }

  lemma {:induction false} ExceptSorted(facts: Facts, l: seq<Key>, s: set<Key>)
    requires Sorted(facts, l)
    ensures Sorted(facts, Except(l, s))
  {
    if l != [] {
      var front, last := l[..|l| - 1], l[|l| - 1];
      ExceptSorted(facts, front, s);
      var r := Except(front, s);
      forall i | 0 <= i < |r| ensures facts[r[i]].lastSeen <= facts[last].lastSeen {
        assert r[i] in front;
        var k :| 0 <= k < |front| && front[k] == r[i];
        assert l[k] == r[i];
      }
    }
  }

  /** Dropping the oldest keys keeps a slice a slice. */
  lemma TrimSlice(facts: Facts, l: seq<Key>, n: nat)
    requires Slice(facts, l) && n <= |l|
    ensures Slice(facts, l[n..])
  {
    var t := l[n..];
    forall k, i | Live(facts, k) && k !in t && 0 <= i < |t| && t[i] in facts
      ensures facts[k].lastSeen <= facts[t[i]].lastSeen
    {
      assert t[i] == l[n + i];
      if k in l {
        var j :| 0 <= j < |l| && l[j] == k;
        forall m | n <= m < |l| ensures l[m] != k {
          assert l[m] == t[m - n];
        }
      }
    }
    forall k | k in t ensures k in l {
    }
  }

  /** How the facts move with an update: related keys are live and just seen, removed ones are not live. */
  ghost predicate Moves(a: Facts, b: Facts, keys: seq<Key>, removed: seq<Key>, now: int) {
    && (forall k :: k in keys ==> Live(b, k) && b[k].lastSeen == now)
    && (forall k :: k in removed ==> !Live(b, k))
    && (forall k :: k !in keys && k !in removed ==> (k in b <==> k in a) && (k in a ==> b[k] == a[k]))
    && (forall k :: k in a ==> a[k].lastSeen <= now)
  }

  lemma MovedSorted(a: Facts, b: Facts, l: seq<Key>, keys: seq<Key>, removed: seq<Key>, now: int)
    requires Sorted(a, l) && Moves(a, b, keys, removed, now)
    ensures Sorted(b, Except(l, Elements(keys) + Elements(removed)) + keys)
  {
    var s := Elements(keys) + Elements(removed);
    ExceptSorted(a, l, s);
    var kept := Except(l, s);
    var all := kept + keys;
    forall i | 0 <= i < |all| ensures all[i] in b && (i < |kept| ==> all[i] in a && b[all[i]] == a[all[i]]) {
      if i < |kept| {
        assert kept[i] in kept;
      } else {
        assert keys[i - |kept|] in keys;
      }
    }
    forall i, j | 0 <= i < j < |all| ensures b[all[i]].lastSeen <= b[all[j]].lastSeen {
      if j >= |kept| {
        assert keys[j - |kept|] in keys;
        if i >= |kept| {
          assert keys[i - |kept|] in keys;
        }
      } else {
        assert all[i] == kept[i] && all[j] == kept[j];
      }
    }
  }

  lemma MovedSlice(a: Facts, b: Facts, l: seq<Key>, keys: seq<Key>, removed: seq<Key>, now: int)
    requires Slice(a, l) && Moves(a, b, keys, removed, now) && Distinct(keys)
    ensures Slice(b, Except(l, Elements(keys) + Elements(removed)) + keys)
  {
    var s := Elements(keys) + Elements(removed);
    var kept := Except(l, s);
    var all := kept + keys;
    MovedSorted(a, b, l, keys, removed, now);
    ExceptDistinct(l, s);
    assert Distinct(all) by {
      forall i, j | 0 <= i < j < |all| ensures all[i] != all[j] {
        if i < |kept| <= j {
          assert kept[i] in kept && keys[j - |kept|] in keys;
        }
      }
    }
    forall k | k in all ensures Live(b, k) {
      if k !in keys {
        assert k in kept;
      }
    }
    MovedRecent(a, b, l, keys, removed, now);
  }

  lemma MovedRecent(a: Facts, b: Facts, l: seq<Key>, keys: seq<Key>, removed: seq<Key>, now: int)
    requires Slice(a, l) && Moves(a, b, keys, removed, now)
    ensures MostRecent(b, Except(l, Elements(keys) + Elements(removed)) + keys)
  {
    var kept := Except(l, Elements(keys) + Elements(removed));
    var all := kept + keys;
    forall k, i | Live(b, k) && k !in all && 0 <= i < |all| && all[i] in b
      ensures b[k].lastSeen <= b[all[i]].lastSeen
    {
      assert k !in keys && k !in removed && k !in kept && k !in l;
      assert k in a && b[k] == a[k] && Live(a, k);
      if i < |kept| {
        assert kept[i] in kept;
        var j :| 0 <= j < |l| && l[j] == kept[i];
        assert a[k].lastSeen <= a[l[j]].lastSeen;
      } else {
        assert keys[i - |kept|] in keys;
      }
    }
  }

  // ---------- Refreshes ----------

  /** Message m refreshes what an update has changed between facts a and b. */
  ghost predicate Describes(a: Facts, b: Facts, m: Message, now: int) {
    && Distinct(Keys(m.items)) && (forall k :: k in Keys(m.items) ==> k !in m.removed)
    && Moves(a, b, Keys(m.items), m.removed, now)
    && forall i :: 0 <= i < |m.items| ==> m.items[i].key in b && m.items[i] == ItemOf(m.items[i].key, b[m.items[i].key])
  }

  lemma RefreshedData(a: Facts, b: Facts, r: Redis, m: Message, now: int)
    requires DataIs(a, r.list, r.data) && Describes(a, b, m, now)
    ensures var l := Except(r.list, Elements(Keys(m.items)) + Elements(m.removed)) + Keys(m.items);
            DataIs(b, l, PutAll(r.data, m.items) - Elements(m.removed))
  {
    var keys := Keys(m.items);
    var l := Except(r.list, Elements(keys) + Elements(m.removed)) + keys;
    var data := PutAll(r.data, m.items) - Elements(m.removed);
    RefreshedKeys(a, b, r, m, now);
    forall k | k in l ensures k in b && data[k] == ItemOf(k, b[k]) {
      RefreshedItem(a, b, r, m, now, k);
    }
  }

  lemma RefreshedKeys(a: Facts, b: Facts, r: Redis, m: Message, now: int)
    requires DataIs(a, r.list, r.data) && Describes(a, b, m, now)
    ensures var l := Except(r.list, Elements(Keys(m.items)) + Elements(m.removed)) + Keys(m.items);
            (PutAll(r.data, m.items) - Elements(m.removed)).Keys == Elements(l)
  {
    PutAllIs(r.data, m.items);
    assert PutAll(r.data, m.items).Keys == Elements(r.list) + Elements(Keys(m.items));
  }

  lemma RefreshedItem(a: Facts, b: Facts, r: Redis, m: Message, now: int, k: Key)
    requires DataIs(a, r.list, r.data) && Describes(a, b, m, now)
    requires k in Keys(m.items) || (k in r.list && k !in m.removed)
    ensures k in b && k in PutAll(r.data, m.items) && PutAll(r.data, m.items)[k] == ItemOf(k, b[k])
  {
    var keys := Keys(m.items);
    PutAllIs(r.data, m.items);
    if k in keys {
      var i :| 0 <= i < |keys| && keys[i] == k;
      assert m.items[i].key == k;
    }
  }

  lemma TrimData(facts: Facts, l: seq<Key>, data: map<Key, Item>, n: nat)
    requires DataIs(facts, l, data) && Distinct(l) && n <= |l|
    ensures DataIs(facts, l[n..], data - Elements(l[..n]))
  {
    assert l == l[..n] + l[n..];
    forall i, j | 0 <= i < n && 0 <= j < |l| - n ensures l[..n][i] != l[n..][j] {
      assert l[i] != l[n + j];
    }
    forall k ensures k in data - Elements(l[..n]) <==> k in l[n..] {
      assert k in l <==> k in l[..n] || k in l[n..];
    }
  }

  /** An applied refresh turns a faithful queue of one version into a faithful queue of the next. */
  lemma RefreshKeeps(capacity: nat, a: Facts, b: Facts, r: Redis, m: Message, now: int)
    requires Faithful(capacity, a, r) && Describes(a, b, m, now) && Applies(r, m)
    ensures Faithful(capacity, b, RefreshQueue(capacity, r, m).0)
  {
    var keys := Keys(m.items);
    var l := Except(r.list, Elements(keys) + Elements(m.removed)) + keys;
    RefreshedList(r.list, keys, m.removed);
    MovedSlice(a, b, r.list, keys, m.removed, now);
    RefreshedData(a, b, r, m, now);
    var n := Excess(l, capacity);
    TrimSlice(b, l, n);
    TrimData(b, l, PutAll(r.data, m.items) - Elements(m.removed), n);
  }

  // ---------- Warm-ups ----------

  ghost function LiveKeys(facts: Facts): (s: set<Key>) {
    set k | k in facts && facts[k].active
  }

  /** The items of a warm-up: as many of the most recently used live resources as fit, oldest first. */
  ghost predicate IsWarmup(capacity: nat, facts: Facts, items: seq<Item>) {
    && Slice(facts, Keys(items)) && |items| <= capacity
    && (forall i :: 0 <= i < |items| ==> items[i].key in facts && items[i] == ItemOf(items[i].key, facts[items[i].key]))
    && (|items| < capacity ==> Elements(Keys(items)) == LiveKeys(facts))
  }

  /** A warm-up of one version makes a faithful queue of that version. */
  lemma ReplaceKeeps(capacity: nat, facts: Facts, items: seq<Item>, version: nat)
    requires IsWarmup(capacity, facts, items)
    ensures Faithful(capacity, facts, ReplaceQueue(capacity, items, version))
  {
    assert items[0..] == items;
    PutAllIs(map[], items);
    var keys := Keys(items);
    forall k | k in keys ensures k in facts && PutAll(map[], items)[k] == ItemOf(k, facts[k]) {
      var i :| 0 <= i < |keys| && keys[i] == k;
    }
  }

  // ---------- Exactness ----------

  /** The queue holds all live resources. */
  ghost predicate Complete(facts: Facts, r: Redis) {
    Elements(r.list) == LiveKeys(facts)
  }

  lemma LiveFits(capacity: nat, facts: Facts, l: seq<Key>)
    requires Distinct(l) && Elements(l) == LiveKeys(facts) && |LiveKeys(facts)| <= capacity
    ensures |l| <= capacity
  {
    ElementsSize(l);
  }

  lemma MovedComplete(a: Facts, b: Facts, l: seq<Key>, keys: seq<Key>, removed: seq<Key>, now: int)
    requires Elements(l) == LiveKeys(a) && Moves(a, b, keys, removed, now) && forall k :: k in keys ==> k !in removed
    ensures Elements(Except(l, Elements(keys) + Elements(removed)) + keys) == LiveKeys(b)
  {
    var all := Except(l, Elements(keys) + Elements(removed)) + keys;
    forall k ensures k in all <==> Live(b, k) {
      assert k in l <==> k in LiveKeys(a);
      if k !in keys && k !in removed {
        assert Live(a, k) <==> Live(b, k);
      }
    }
  }

  /** If nothing overflows, a refresh keeps the queue complete. */
  lemma RefreshComplete(capacity: nat, a: Facts, b: Facts, r: Redis, m: Message, now: int)
    requires Faithful(capacity, a, r) && Describes(a, b, m, now) && Applies(r, m)
    requires Complete(a, r) && |LiveKeys(b)| <= capacity
    ensures Complete(b, RefreshQueue(capacity, r, m).0)
  {
    var keys := Keys(m.items);
    var l := Except(r.list, Elements(keys) + Elements(m.removed)) + keys;
    RefreshedList(r.list, keys, m.removed);
    MovedSlice(a, b, r.list, keys, m.removed, now);
    MovedComplete(a, b, r.list, keys, m.removed, now);
    LiveFits(capacity, b, l);
    assert l[0..] == l;
  }

  lemma ReplaceComplete(capacity: nat, facts: Facts, items: seq<Item>, version: nat)
    requires IsWarmup(capacity, facts, items) && |LiveKeys(facts)| <= capacity
    ensures Complete(facts, ReplaceQueue(capacity, items, version))
  {
    assert items[0..] == items;
    var s := Elements(Keys(items));
    assert s <= LiveKeys(facts) by {
      forall k | k in s ensures k in LiveKeys(facts) {
        assert Live(facts, k);
      }
    }
    if |items| == capacity {
      ElementsSize(Keys(items));
      SubsetSize(s, LiveKeys(facts));
    }
  }

  // ---------- The chain and its cache over time ----------

  datatype Commit = Commit(update: Update, turn: ContextFacts.TurnId, now: int)

  /**
    `history[v]` are the facts at version v, and `commits[v]` is the update that made version
    v + 1. `builtAt` remembers the version from which the cached queue was built.
   */
  datatype System = System(history: seq<Facts>, commits: seq<Commit>, redis: Redis, builtAt: nat)

  datatype Action =
    | CommitUpdate(commit: Commit)
    | DeliverRefresh(version: nat)
    | DeliverWarmup(version: nat, items: seq<Item>)
    | Invalidate

  function Applied(facts: Facts, c: Commit): Facts
    requires AllSplit(c.update.removed)
  {
    StepAll(facts, UpdateEvents(facts, c.update, c.turn, c.now))
  }

  /** The clock of a chain does not run backwards. */
  ghost predicate NotBefore(facts: Facts, now: int) {
    forall k :: k in facts ==> facts[k].lastSeen <= now
  }

  function RefreshItems(related: seq<Related>, turn: ContextFacts.TurnId, now: int): (s: seq<Item>)
    ensures |s| == |related|
    ensures forall i :: 0 <= i < |s| ==> s[i] == Item(related[i].key, related[i].data, turn, now)
  {
    seq(|related|, i requires 0 <= i < |related| => Item(related[i].key, related[i].data, turn, now))
  }

  /** The refresh that was prepared for the update from version v to v + 1. */
  function MessageOf(c: Commit, v: nat): Message {
    Message(RefreshItems(c.update.related, c.turn, c.now), c.update.removed, v, v + 1)
  }

  const START: System := System([map[]], [], EMPTY, 0)

  ghost predicate CanCommit(st: System, c: Commit) {
    ValidUpdate(c.update) && !IsEmpty(c.update) && st.history != [] && NotBefore(st.history[|st.history| - 1], c.now)
  }

  /** Refreshes of any committed update and warm-ups of any past version may arrive at any time, or never. */
  ghost function Exec(capacity: nat, st: System, a: Action): System {
    match a
    case CommitUpdate(c) =>
      if CanCommit(st, c)
      then st.(history := st.history + [Applied(st.history[|st.history| - 1], c)], commits := st.commits + [c]) else st
    case DeliverRefresh(v) =>
      if v < |st.commits| then
        st.(redis := RefreshQueue(capacity, st.redis, MessageOf(st.commits[v], v)).0,
            builtAt := if st.redis.version.None? && v == 0 then 0 else st.builtAt)
      else st
    case DeliverWarmup(v, items) =>
      if v < |st.history| && IsWarmup(capacity, st.history[v], items)
      then st.(redis := ReplaceQueue(capacity, items, v), builtAt := v) else st
    case Invalidate => st.(redis := EMPTY)
  }

  ghost function Run(capacity: nat, st: System, actions: seq<Action>): System
    decreases |actions|
  {
    if actions == [] then st else Run(capacity, Exec(capacity, st, actions[0]), actions[1..])
  }

  ghost predicate HistoryOk(st: System) {
    && |st.history| == |st.commits| + 1 && st.history[0] == map[]
    && (forall v :: 0 <= v < |st.commits| ==> CommitOk(st, v))
  }

  ghost predicate CommitOk(st: System, v: nat)
    requires v < |st.commits| && |st.history| == |st.commits| + 1
  {
    && ValidUpdate(st.commits[v].update) && NotBefore(st.history[v], st.commits[v].now)
    && st.history[v + 1] == Applied(st.history[v], st.commits[v])
  }

  /** No version since the queue was built had more live resources than fit. */
  ghost predicate NeverOverflowed(capacity: nat, st: System, from: nat, to: nat)
    requires to < |st.history|
  {
    forall w :: from <= w <= to ==> |LiveKeys(st.history[w])| <= capacity
  }

  ghost predicate CacheOk(capacity: nat, st: System) {
    match st.redis.version
    case None => st.redis == EMPTY
    case Some(v) =>
      && v < |st.history| && st.builtAt <= v && Faithful(capacity, st.history[v], st.redis)
      && (NeverOverflowed(capacity, st, st.builtAt, v) ==> Complete(st.history[v], st.redis))
  }

  ghost predicate Inv(capacity: nat, st: System) {
    HistoryOk(st) && CacheOk(capacity, st)
  }

  /** The message of a commit describes how the facts move. */
  lemma MessageDescribes(facts: Facts, c: Commit, v: nat)
    requires ValidUpdate(c.update) && NotBefore(facts, c.now)
    ensures Describes(facts, Applied(facts, c), MessageOf(c, v), c.now)
  {
    var u, m, b := c.update, MessageOf(c, v), Applied(facts, c);
    var keys := Keys(m.items);
    assert keys == RelatedKeys(u.related);
    forall i | 0 <= i < |m.items|
      ensures m.items[i].key in b && m.items[i] == ItemOf(m.items[i].key, b[m.items[i].key])
              && b[m.items[i].key].active && b[m.items[i].key].lastSeen == c.now
    {
      RelatedRow(facts, u, c.turn, c.now, i);
    }
    forall k | k in keys ensures Live(b, k) && b[k].lastSeen == c.now && k !in u.removed {
      var i :| 0 <= i < |keys| && keys[i] == k;
      assert m.items[i].key == k && u.related[i] in u.related;
    }
    forall k | k in u.removed ensures !Live(b, k) {
      RemovedRow(facts, u, c.turn, c.now, k);
    }
    forall k | k !in keys && k !in u.removed ensures (k in b <==> k in facts) && (k in facts ==> b[k] == facts[k]) {
      OtherRow(facts, u, c.turn, c.now, k);
    }
  }

  lemma EmptyFaithful(capacity: nat)
    ensures Faithful(capacity, map[], EMPTY) && Complete(map[], EMPTY)
  {
  }

  lemma CommitKeeps(capacity: nat, st: System, c: Commit)
    requires Inv(capacity, st) && CanCommit(st, c)
    ensures Inv(capacity, Exec(capacity, st, CommitUpdate(c)))
  {
    var b := Exec(capacity, st, CommitUpdate(c));
    forall v | 0 <= v < |b.commits| ensures CommitOk(b, v) {
      if v < |st.commits| {
        assert CommitOk(st, v);
      }
    }
    if b.redis.version.Some? {
      var v := b.redis.version.value;
      assert b.history[v] == st.history[v];
      assert NeverOverflowed(capacity, b, b.builtAt, v) ==> NeverOverflowed(capacity, st, st.builtAt, v) by {
        forall w | st.builtAt <= w <= v ensures b.history[w] == st.history[w] {
        }
      }
    }
  }

  lemma SameHistory(a: System, b: System)
    requires HistoryOk(a) && b.history == a.history && b.commits == a.commits
    ensures HistoryOk(b)
  {
    forall v | 0 <= v < |b.commits| ensures CommitOk(b, v) {
      assert CommitOk(a, v);
    }
  }

  /** A refresh applies to the version it expects, or to a missing queue when it expects version 0. */
  lemma AppliesToFaithful(capacity: nat, st: System, v: nat)
    requires Inv(capacity, st) && v < |st.commits| && Applies(st.redis, MessageOf(st.commits[v], v))
    ensures Faithful(capacity, st.history[v], st.redis)
  {
    EmptyFaithful(capacity);
  }

  lemma DeliverKeeps(capacity: nat, st: System, v: nat)
    requires Inv(capacity, st) && v < |st.commits|
    ensures Inv(capacity, Exec(capacity, st, DeliverRefresh(v)))
  {
    var c := st.commits[v];
    var m := MessageOf(c, v);
    SameHistory(st, Exec(capacity, st, DeliverRefresh(v)));
    if Applies(st.redis, m) {
      assert CommitOk(st, v);
      MessageDescribes(st.history[v], c, v);
      AppliesToFaithful(capacity, st, v);
      DeliverFaithful(capacity, st, v);
      DeliverComplete(capacity, st, v);
    } else {
      IgnoredKeeps(capacity, st, v);
    }
  }

  lemma DeliverFaithful(capacity: nat, st: System, v: nat)
    requires v < |st.commits| && |st.history| == |st.commits| + 1
    requires Applies(st.redis, MessageOf(st.commits[v], v)) && Faithful(capacity, st.history[v], st.redis)
    requires Describes(st.history[v], st.history[v + 1], MessageOf(st.commits[v], v), st.commits[v].now)
    ensures var b := Exec(capacity, st, DeliverRefresh(v));
            b.redis.version == Some(v + 1) && Faithful(capacity, b.history[v + 1], b.redis)
  {
    RefreshKeeps(
      capacity, st.history[v], st.history[v + 1], st.redis, MessageOf(st.commits[v], v), st.commits[v].now);
  }

  lemma IgnoredKeeps(capacity: nat, st: System, v: nat)
    requires Inv(capacity, st) && v < |st.commits| && !Applies(st.redis, MessageOf(st.commits[v], v))
    ensures CacheOk(capacity, Exec(capacity, st, DeliverRefresh(v)))
  {
    var b := Exec(capacity, st, DeliverRefresh(v));
    assert b.redis == st.redis && b.history == st.history;
    if st.redis.version.Some? {
      var w := st.redis.version.value;
      assert NeverOverflowed(capacity, b, b.builtAt, w) <==> NeverOverflowed(capacity, st, st.builtAt, w);
    }
  }

  lemma DeliverComplete(capacity: nat, st: System, v: nat)
    requires Inv(capacity, st) && v < |st.commits| && Applies(st.redis, MessageOf(st.commits[v], v))
    requires Faithful(capacity, st.history[v], st.redis)
    requires Describes(st.history[v], st.history[v + 1], MessageOf(st.commits[v], v), st.commits[v].now)
    ensures var b := Exec(capacity, st, DeliverRefresh(v));
            && b.builtAt <= v + 1
            && (NeverOverflowed(capacity, b, b.builtAt, v + 1) ==> Complete(b.history[v + 1], b.redis))
  {
    var b := Exec(capacity, st, DeliverRefresh(v));
    EmptyFaithful(capacity);
    if NeverOverflowed(capacity, b, b.builtAt, v + 1) {
      assert |LiveKeys(st.history[v + 1])| <= capacity;
      assert Complete(st.history[v], st.redis) by {
        if st.redis.version.Some? {
          assert NeverOverflowed(capacity, st, st.builtAt, v);
        }
      }
      RefreshComplete(capacity, st.history[v], st.history[v + 1], st.redis, MessageOf(st.commits[v], v), st.commits[v].now);
    }
  }

  lemma WarmupKeeps(capacity: nat, st: System, v: nat, items: seq<Item>)
    requires Inv(capacity, st) && v < |st.history| && IsWarmup(capacity, st.history[v], items)
    ensures Inv(capacity, Exec(capacity, st, DeliverWarmup(v, items)))
  {
    var b := Exec(capacity, st, DeliverWarmup(v, items));
    ReplaceKeeps(capacity, st.history[v], items, v);
    if NeverOverflowed(capacity, b, v, v) {
      ReplaceComplete(capacity, st.history[v], items, v);
    }
    SameHistory(st, b);
  }

  lemma ExecKeeps(capacity: nat, st: System, a: Action)
    requires Inv(capacity, st)
    ensures Inv(capacity, Exec(capacity, st, a))
  {
    match a
    case CommitUpdate(c) =>
      if CanCommit(st, c) {
        CommitKeeps(capacity, st, c);
      }
    case DeliverRefresh(v) =>
      if v < |st.commits| {
        DeliverKeeps(capacity, st, v);
      }
    case DeliverWarmup(v, items) =>
      if v < |st.history| && IsWarmup(capacity, st.history[v], items) {
        WarmupKeeps(capacity, st, v, items);
      }
    case Invalidate => SameHistory(st, st.(redis := EMPTY));
  }

  lemma {:induction false} RunKeeps(capacity: nat, st: System, actions: seq<Action>)
    requires Inv(capacity, st)
    ensures Inv(capacity, Run(capacity, st, actions))
    decreases |actions|
  {
    if actions != [] {
      ExecKeeps(capacity, st, actions[0]);
      RunKeeps(capacity, Exec(capacity, st, actions[0]), actions[1..]);
    }
  }

  /** What a hit for version v returns. */
  ghost predicate IsHit(capacity: nat, facts: Facts, items: seq<Item>) {
    && Slice(facts, Keys(items)) && |items| <= capacity
    && forall i :: 0 <= i < |items| ==> items[i].key in facts && items[i] == ItemOf(items[i].key, facts[items[i].key])
  }

  lemma FaithfulHit(capacity: nat, facts: Facts, r: Redis, v: nat)
    requires Faithful(capacity, facts, r) && r.version == Some(v)
    ensures var hit := GetQueue(capacity, r, v);
            hit.Some? && IsHit(capacity, facts, hit.value) && Keys(hit.value) == r.list
  {
    forall i | 0 <= i < |r.list| ensures r.list[i] in r.data && r.data[r.list[i]].key == r.list[i] {
      assert r.list[i] in r.list;
    }
    var hit := GetQueue(capacity, r, v);
    assert hit.Some?;
    assert Keys(hit.value) == r.list;
    forall i | 0 <= i < |hit.value|
      ensures hit.value[i].key in facts && hit.value[i] == ItemOf(hit.value[i].key, facts[hit.value[i].key])
    {
      assert r.list[i] in r.list;
    }
  }

  /**
    In every run, a hit for version v returns the facts of version v and of no other: a slice
    of its most recently used live resources, and all of them if they have always fitted.
   */
  lemma HitsAreFaithful(capacity: nat, actions: seq<Action>, v: nat)
    requires GetQueue(capacity, Run(capacity, START, actions).redis, v).Some?
    ensures var st := Run(capacity, START, actions);
            var items := GetQueue(capacity, st.redis, v).value;
            && v < |st.history| && IsHit(capacity, st.history[v], items)
            && (NeverOverflowed(capacity, st, st.builtAt, v) ==> Elements(Keys(items)) == LiveKeys(st.history[v]))
  {
    var st := Run(capacity, START, actions);
    RunKeeps(capacity, START, actions);
    FaithfulHit(capacity, st.history[v], st.redis, v);
  }

  /** A queue of the current version is always a hit. */
  lemma CurrentVersionHits(capacity: nat, actions: seq<Action>, v: nat)
    requires Run(capacity, START, actions).redis.version == Some(v)
    ensures GetQueue(capacity, Run(capacity, START, actions).redis, v).Some?
  {
    var st := Run(capacity, START, actions);
    RunKeeps(capacity, START, actions);
    FaithfulHit(capacity, st.history[v], st.redis, v);
  }

  /** A refresh is applied exactly to the version it expects, or to a missing queue when it is the first one. */
  lemma RefreshAdvancesIff(capacity: nat, st: System, v: nat)
    requires v < |st.commits|
    ensures var next := Exec(capacity, st, DeliverRefresh(v));
            if st.redis.version == Some(v) || (st.redis.version.None? && v == 0)
            then next.redis.version == Some(v + 1) else next.redis == st.redis
  {
  }

  function InOrder(n: nat): (actions: seq<Action>)
    ensures |actions| == n
  {
    seq(n, v requires 0 <= v < n => DeliverRefresh(v))
  }

  /** When all refreshes arrive in order, the queue reaches the newest version, which then hits. */
  lemma InOrderReachesNewest(capacity: nat, actions: seq<Action>)
    requires var st := Run(capacity, START, actions);
             st.redis.version.None? && st.commits != []
    ensures var st := Run(capacity, START, actions);
            var later := Run(capacity, st, InOrder(|st.commits|));
            && later.history == st.history && later.redis.version == Some(|st.commits|)
            && GetQueue(capacity, later.redis, |st.commits|).Some?
  {
    var st := Run(capacity, START, actions);
    RunKeeps(capacity, START, actions);
    DeliversFrom(capacity, st, 0);
    assert InOrder(|st.commits|) == From(0, |st.commits|);
    var later := Run(capacity, st, InOrder(|st.commits|));
    RunKeeps(capacity, st, InOrder(|st.commits|));
    FaithfulHit(capacity, later.history[|st.commits|], later.redis, |st.commits|);
  }

  function From(v: nat, n: nat): (actions: seq<Action>)
    requires v <= n
  {
    seq(n - v, i requires 0 <= i < n - v => DeliverRefresh(v + i))
  }

  lemma {:induction false} DeliversFrom(capacity: nat, st: System, v: nat)
    requires v <= |st.commits| && st.redis.version == (if v == 0 then None else Some(v))
    ensures var later := Run(capacity, st, From(v, |st.commits|));
            && later.history == st.history && later.commits == st.commits
            && later.redis.version == (if |st.commits| == 0 then None else Some(|st.commits|))
    decreases |st.commits| - v
  {
    if v < |st.commits| {
      RefreshAdvancesIff(capacity, st, v);
      var n := |st.commits|;
      assert From(v, n)[0] == DeliverRefresh(v);
      assert From(v, n)[1..] == From(v + 1, n);
      DeliversFrom(capacity, Exec(capacity, st, DeliverRefresh(v)), v + 1);
    }
  }
}
