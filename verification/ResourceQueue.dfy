/**
  The hot queue as the program has it: the Lua scripts as loops over a list, a hash and a
  version, and the warm-up that reads the facts. The scripts are proved to compute the
  refresh and the replacement of the cache model.
 */
module ResourceQueue {
  import opened Common
  import opened ContextFacts
  import opened ResourceCache

  class RedisQueue {
    const capacity: nat
    var list: seq<Key>
    var data: map<Key, Item>
    var version: Option<nat>

    constructor (capacity: nat)
      requires capacity >= 1
      ensures this.capacity == capacity && State() == EMPTY
    {
      this.capacity := capacity;
      list, data, version := [], map[], None;
    }

    function State(): Redis
      reads this
    {
      Redis(list, data, version)
    }

    /** `LREM list 0 key` */
    method Lrem(key: Key)
      modifies this`list
      ensures list == Except(old(list), {key})
    {
      var kept := [];
      var i := 0;
      while i < |list|
        invariant 0 <= i <= |list| && list == old(list)
        invariant kept == Except(list[..i], {key})
      {
        assert list[..i + 1][..i] == list[..i] && list[..i + 1][i] == list[i];
        if list[i] != key {
          kept := kept + [list[i]];
        }
        i := i + 1;
      }
      assert list[..i] == list;
      list := kept;
    }

    /** Step 2 of the refresh script: every refreshed key moves to the tail. */
    method PushItems(items: seq<Item>)
      modifies this`list, this`data
      ensures list == PushAll(old(list), Keys(items)) && data == PutAll(old(data), items)
    {
      var i := 0;
      assert Keys(items[..0]) == [];
      while i < |items|
        invariant 0 <= i <= |items|
        invariant list == PushAll(old(list), Keys(items[..i])) && data == PutAll(old(data), items[..i])
      {
        var item := items[i];
        PutNext(old(data), items, i);
        assert (Keys(items[..i]) + [item.key])[..i] == Keys(items[..i]);
        Lrem(item.key);
        list := list + [item.key];
        data := data[item.key := item];
        i := i + 1;
      }
      assert items[..i] == items;
    }

    /** Step 3 of the refresh script. */
    method RemoveKeys(removed: seq<Key>)
      modifies this`list, this`data
      ensures list == DropAll(old(list), removed) && data == old(data) - Elements(removed)
    {
      var i := 0;
      assert Elements(removed[..0]) == {};
      while i < |removed|
        invariant 0 <= i <= |removed|
        invariant list == DropAll(old(list), removed[..i]) && data == old(data) - Elements(removed[..i])
      {
        assert removed[..i + 1] == removed[..i] + [removed[i]];
        ElementsSnoc(removed[..i], removed[i]);
        Lrem(removed[i]);
        data := data - {removed[i]};
        i := i + 1;
      }
      assert removed[..i] == removed;
    }

    /** Step 4 of the refresh script: pop from the head while the list is too long. */
    method TrimHead()
      modifies this`list, this`data
      ensures var n := Excess(old(list), capacity);
              list == old(list)[n..] && data == old(data) - Elements(old(list)[..n])
    {
      ghost var all := list;
      var length := |list|;
      ghost var popped := 0;
      assert Elements(all[..0]) == {};
      while length > capacity
        invariant 0 <= popped <= |all| && length == |all| - popped == |list|
        invariant popped <= Excess(all, capacity)
        invariant list == all[popped..] && data == old(data) - Elements(all[..popped])
        decreases length
      {
        var removed := list[0];
        assert all[..popped + 1] == all[..popped] + [removed];
        ElementsSnoc(all[..popped], removed);
        list := list[1..];
        data := data - {removed};
        length := length - 1;
        popped := popped + 1;
      }
    }

    /** `REFRESH_QUEUE_LUA`: false when the version does not fit. */
    method Refresh(m: Message) returns (applied: bool)
      modifies this
      ensures (State(), applied) == RefreshQueue(capacity, old(State()), m)
    {
      if version.Some? {
        if version.value != m.expected {
          return false;
        }
      } else if m.expected != 0 {
        return false;
      }
      PushItems(m.items);
      RemoveKeys(m.removed);
      TrimHead();
      version := Some(m.version);
      return true;
    }

    /** `replace` with `REPLACE_QUEUE_LUA` */
    method Replace(items: seq<Item>, databaseVersion: nat)
      modifies this
      ensures State() == ReplaceQueue(capacity, items, databaseVersion)
    {
      var last := if |items| > capacity then items[|items| - capacity..] else items;
      assert last == items[Excess(Keys(items), capacity)..];
      list, data := [], map[];
      var i := 0;
      while i < |last|
        invariant 0 <= i <= |last|
        invariant list == Keys(last[..i]) && data == PutAll(map[], last[..i])
      {
        PutNext(map[], last, i);
        list := list + [last[i].key];
        data := data[last[i].key := last[i]];
        i := i + 1;
      }
      assert last[..i] == last;
      version := Some(databaseVersion);
    }

    /** `invalidate` */
    method Invalidate()
      modifies this
      ensures State() == EMPTY
    {
      list, data, version := [], map[], None;
    }

    /** `get`, with the three commands under the conversation lock */
    method Get(expected: nat) returns (hit: Option<seq<Item>>)
      ensures hit == GetQueue(capacity, State(), expected)
    {
      if version.None? || version.value != expected {
        return None;
      }
      if list == [] {
        return Some([]);
      }
      if |list| > capacity {
        return None;
      }
      var items := [];
      var i := 0;
      while i < |list|
        invariant 0 <= i <= |list| && |items| == i
        invariant forall j :: 0 <= j < i ==> list[j] in data && data[list[j]].key == list[j] && items[j] == data[list[j]]
      {
        if list[i] !in data || data[list[i]].key != list[i] {
          return None;
        }
        items := items + [data[list[i]]];
        i := i + 1;
      }
      GetItems(capacity, State(), items);
      return Some(items);
    }
  }

  lemma PutNext(data: map<Key, Item>, items: seq<Item>, i: nat)
    requires i < |items|
    ensures Keys(items[..i + 1]) == Keys(items[..i]) + [items[i].key]
    ensures PutAll(data, items[..i + 1]) == PutAll(data, items[..i])[items[i].key := items[i]]
  {
    assert items[..i + 1][..i] == items[..i];
  }

  lemma GetItems(capacity: nat, r: Redis, items: seq<Item>)
    requires r.version.Some? && r.list != [] && |r.list| <= capacity && |items| == |r.list|
    requires forall j :: 0 <= j < |r.list| ==>
               r.list[j] in r.data && r.data[r.list[j]].key == r.list[j] && items[j] == r.data[r.list[j]]
    ensures GetQueue(capacity, r, r.version.value) == Some(items)
  {
    var hit := GetQueue(capacity, r, r.version.value);
    assert hit.Some?;
    assert hit.value == items;
  }

  // ---------- Warm-up ----------

  /** One of the live resources outside the list that has been seen last. */
  method LatestOf(facts: Facts, rest: set<Key>) returns (latest: Key)
    requires |rest| > 0 && rest <= facts.Keys
    ensures latest in rest && forall k :: k in rest ==> facts[k].lastSeen <= facts[latest].lastSeen
  {
    latest := Pick(rest);
    var open := rest - {latest};
    while |open| > 0
      invariant latest in rest && open <= rest
      invariant forall k :: k in rest && k !in open ==> facts[k].lastSeen <= facts[latest].lastSeen
    {
      var k := Pick(open);
      if facts[k].lastSeen > facts[latest].lastSeen {
        latest := k;
      }
      open := open - {k};
    }
  }

  /** The slice l together with the live resources it leaves out. */
  ghost predicate Partial(facts: Facts, l: seq<Key>, rest: set<Key>) {
    && Slice(facts, l) && rest == LiveKeys(facts) - Elements(l)
  }

  lemma PartialNext(facts: Facts, l: seq<Key>, rest: set<Key>, k: Key)
    requires Partial(facts, l, rest) && k in rest
    requires forall j :: j in rest ==> j in facts && facts[j].lastSeen <= facts[k].lastSeen
    ensures Partial(facts, [k] + l, rest - {k})
  {
    var next := [k] + l;
    assert Live(facts, k) && k !in l;
    forall i | 0 <= i < |l| ensures facts[k].lastSeen <= facts[l[i]].lastSeen {
      assert l[i] in facts;
    }
    assert Sorted(facts, next);
    forall j, i | Live(facts, j) && j !in next && 0 <= i < |next| && next[i] in facts
      ensures facts[j].lastSeen <= facts[next[i]].lastSeen
    {
      assert j in LiveKeys(facts) && j !in l;
      if i > 0 {
        assert next[i] == l[i - 1];
      }
    }
    assert Elements(next) == Elements(l) + {k};
  }

  /** `list_resources_for_warmup` and its reversal: oldest first; ties may come in any order. */
  method LoadForWarmup(capacity: nat, facts: Facts) returns (items: seq<Item>)
    ensures IsWarmup(capacity, facts, items)
  {
    var l := [];
    var rest := set k | k in facts && facts[k].active;
    items := [];
    assert rest == LiveKeys(facts) - Elements(l);
    while |rest| > 0 && |l| < capacity
      invariant Partial(facts, l, rest) && |l| <= capacity && Keys(items) == l
      invariant ItemsMatch(facts, items)
    {
      var k := LatestOf(facts, rest);
      PartialNext(facts, l, rest, k);
      MatchNext(facts, items, k);
      l := [k] + l;
      items := [ItemOf(k, facts[k])] + items;
      rest := rest - {k};
    }
    WarmupDone(capacity, facts, items, rest);
  }

  ghost predicate ItemsMatch(facts: Facts, items: seq<Item>) {
    forall i :: 0 <= i < |items| ==> items[i].key in facts && items[i] == ItemOf(items[i].key, facts[items[i].key])
  }

  lemma MatchNext(facts: Facts, items: seq<Item>, k: Key)
    requires ItemsMatch(facts, items) && k in facts
    ensures ItemsMatch(facts, [ItemOf(k, facts[k])] + items)
    ensures Keys([ItemOf(k, facts[k])] + items) == [k] + Keys(items)
  {
  }

  lemma WarmupDone(capacity: nat, facts: Facts, items: seq<Item>, rest: set<Key>)
    requires Partial(facts, Keys(items), rest) && |items| <= capacity && ItemsMatch(facts, items)
    requires |rest| == 0 || |items| == capacity
    ensures IsWarmup(capacity, facts, items)
  {
    var l := Keys(items);
    if |items| < capacity {
      assert rest == {};
      forall k | k in l ensures k in LiveKeys(facts) {
        assert Live(facts, k);
      }
      assert Elements(l) == LiveKeys(facts);
    }
  }
}
