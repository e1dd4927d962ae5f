/**
  The resource facts of one context chain: a state table that is updated in place, and an
  append-only log of what happened to every resource. The table is proved to be the replay
  of the log, and the replay to be what the log says about each resource on its own.
 */
module ContextFacts {
  import opened Common

  type Key = string
  type TurnId = int

  datatype Data = Data(kind: string, id: string, relation: Option<string>, summary: Option<string>)

  datatype Row = Row(
    data: Data, firstTurn: TurnId, lastTurn: TurnId, firstSeen: int, lastSeen: int, useCount: nat, active: bool,
    removedAt: Option<int>)

  datatype ResourceAction = Seen | Refreshed | Removed

  datatype ResourceEvent = ResourceEvent(key: Key, action: ResourceAction, turn: TurnId, data: Data, at: int)

  datatype Related = Related(key: Key, data: Data)

  datatype Update = Update(related: seq<Related>, removed: seq<Key>)

  /** What is refreshed in the cache after the commit. */
  datatype Refresh = Refresh(items: seq<(Key, Row)>, removed: seq<Key>, expected: nat, version: nat)

  // ---------- Resource keys ----------

  predicate TypeStart(c: char) { 'a' <= c <= 'z' }

  predicate TypeChar(c: char) { 'a' <= c <= 'z' || '0' <= c <= '9' || c == '_' }

  predicate ValidType(s: string) {
    && 1 <= |s| <= 100 && TypeStart(s[0])
    && forall i :: 0 <= i < |s| ==> TypeChar(s[i])
  }

  predicate ValidId(s: string) {
    1 <= |s| <= 400
  }

  /** The position of the first colon, or the length of s. */
  function Colon(s: string): (i: nat)
    ensures i <= |s| && (i < |s| ==> s[i] == ':') && forall k :: 0 <= k < i ==> s[k] != ':'
  {
    if s == "" || s[0] == ':' then 0 else 1 + Colon(s[1..])
  }

  /** `split_resource_key` */
  function SplitKey(key: string): (r: Option<(string, string)>) {
    var i := Colon(key);
    if i == |key| then None
    else
      var kind, id := key[..i], key[i + 1..];
      if ValidType(kind) && ValidId(id) then Some((kind, id)) else None
  }

  /** Splitting succeeds exactly on valid types joined with valid identifiers, and gives them back. */
  lemma SplitKeyExactly(key: string, kind: string, id: string)
    ensures SplitKey(key) == Some((kind, id)) <==> ValidType(kind) && ValidId(id) && key == kind + ":" + id
  {
    if ValidType(kind) && ValidId(id) && key == kind + ":" + id {
      forall k | 0 <= k < |kind| ensures key[k] != ':' {
        assert key[k] == kind[k] && TypeChar(kind[k]);
      }
      assert key[|kind|] == ':';
      assert Colon(key) == |kind|;
      assert key[..|kind|] == kind && key[|kind| + 1..] == id;
    }
    if SplitKey(key) == Some((kind, id)) {
      var i := Colon(key);
      assert key == key[..i] + [key[i]] + key[i + 1..];
      assert key == kind + ":" + id;
    }
  }

  // ---------- The log and its replay ----------

  predicate IsUse(e: ResourceEvent) {
    e.action != Removed
  }

  function Touch(row: Row, e: ResourceEvent): Row {
    row.(data := e.data, lastTurn := e.turn, lastSeen := e.at, useCount := row.useCount + 1, active := true,
         removedAt := None)
  }

  function NewRow(e: ResourceEvent): Row {
    Row(e.data, e.turn, e.turn, e.at, e.at, 1, true, None)
  }

  /** One event, as the state table sees it. */
  function Step(rows: map<Key, Row>, e: ResourceEvent): map<Key, Row> {
    if IsUse(e) then rows[e.key := if e.key in rows then Touch(rows[e.key], e) else NewRow(e)]
    else if e.key in rows then rows[e.key := rows[e.key].(active := false, removedAt := Some(e.at))]
    else rows
  }

  function Replay(log: seq<ResourceEvent>): (rows: map<Key, Row>) {
    if log == [] then map[] else Step(Replay(log[..|log| - 1]), log[|log| - 1])
  }

  lemma ReplaySnoc(log: seq<ResourceEvent>, e: ResourceEvent)
    ensures Replay(log + [e]) == Step(Replay(log), e)
  {
    assert (log + [e])[..|log|] == log;
  }

  // ---------- What the log says about one key ----------

  function Uses(log: seq<ResourceEvent>, k: Key): nat {
    if log == [] then 0
    else Uses(log[..|log| - 1], k) + (if log[|log| - 1].key == k && IsUse(log[|log| - 1]) then 1 else 0)
  }

  function Seens(log: seq<ResourceEvent>, k: Key): nat {
    if log == [] then 0
    else Seens(log[..|log| - 1], k) + (if log[|log| - 1].key == k && log[|log| - 1].action == Seen then 1 else 0)
  }

  ghost predicate UsedBefore(log: seq<ResourceEvent>, i: nat, k: Key) {
    exists j :: 0 <= j < i && j < |log| && log[j].key == k && IsUse(log[j])
  }

  /** A use is labelled as the first sight of its key exactly when the key has not been used before. */
  ghost predicate WellLabelled(log: seq<ResourceEvent>) {
    forall i :: 0 <= i < |log| && IsUse(log[i]) ==> (log[i].action == Seen <==> !UsedBefore(log, i, log[i].key))
  }

  /** Position i holds the last event of key k that satisfies IsUse, or the last of any kind. */
  predicate IsLastUse(log: seq<ResourceEvent>, k: Key, i: int) {
    && 0 <= i < |log| && log[i].key == k && IsUse(log[i])
    && forall j :: i < j < |log| ==> !(log[j].key == k && IsUse(log[j]))
  }

  predicate IsLastEvent(log: seq<ResourceEvent>, k: Key, i: int) {
    0 <= i < |log| && log[i].key == k && forall j :: i < j < |log| ==> log[j].key != k
  }

  /** A key has a row exactly when it has been used, and its use count is the number of uses. */
  lemma {:induction false} UseCountIsUses(log: seq<ResourceEvent>, k: Key)
    ensures k in Replay(log) <==> Uses(log, k) > 0
    ensures k in Replay(log) ==> Replay(log)[k].useCount == Uses(log, k)
  {
    if log != [] {
      UseCountIsUses(log[..|log| - 1], k);
    }
  }

  lemma {:induction false} UsedIsUses(log: seq<ResourceEvent>, k: Key)
    ensures UsedBefore(log, |log|, k) <==> Uses(log, k) > 0
  {
    if log != [] {
      var front := log[..|log| - 1];
      UsedIsUses(front, k);
      if UsedBefore(front, |front|, k) {
        var j :| 0 <= j < |front| && front[j].key == k && IsUse(front[j]);
        assert log[j] == front[j];
      }
      if UsedBefore(log, |log|, k) && !(log[|log| - 1].key == k && IsUse(log[|log| - 1])) {
        var j :| 0 <= j < |log| && log[j].key == k && IsUse(log[j]);
        assert front[j] == log[j];
      }
    }
  }

  lemma WellLabelledPrefix(log: seq<ResourceEvent>, n: nat)
    requires WellLabelled(log) && n <= |log|
    ensures WellLabelled(log[..n])
  {
    var front := log[..n];
    forall i | 0 <= i < n && IsUse(front[i]) ensures front[i].action == Seen <==> !UsedBefore(front, i, front[i].key) {
      UsedBeforeSame(log, n, i, front[i].key);
    }
  }

  lemma UsedBeforeSame(log: seq<ResourceEvent>, n: nat, i: nat, k: Key)
    requires i <= n <= |log|
    ensures UsedBefore(log[..n], i, k) <==> UsedBefore(log, i, k)
  {
    if UsedBefore(log, i, k) {
      var j :| 0 <= j < i && j < |log| && log[j].key == k && IsUse(log[j]);
      assert log[..n][j] == log[j];
    }
  }

  /** A key has exactly one first sight if it has been used at all, and none otherwise. */
  lemma {:induction false} SeenOnce(log: seq<ResourceEvent>, k: Key)
    requires WellLabelled(log)
    ensures Seens(log, k) == if Uses(log, k) > 0 then 1 else 0
  {
    if log != [] {
      var front := log[..|log| - 1];
      var e := log[|log| - 1];
      WellLabelledPrefix(log, |log| - 1);
      SeenOnce(front, k);
      if e.key == k && IsUse(e) {
        UsedBeforeSame(log, |log| - 1, |log| - 1, k);
        UsedIsUses(front, k);
      }
    }
  }

  /** A resource is active exactly when its last event is not a removal. */
  lemma {:induction false} ActiveIsLastEvent(log: seq<ResourceEvent>, k: Key)
    requires k in Replay(log)
    ensures exists i :: IsLastEvent(log, k, i) && (Replay(log)[k].active <==> IsUse(log[i]))
  {
    var front, n := log[..|log| - 1], |log| - 1;
    if log[n].key == k {
      assert IsLastEvent(log, k, n);
    } else {
      ActiveIsLastEvent(front, k);
      var i :| IsLastEvent(front, k, i) && (Replay(front)[k].active <==> IsUse(front[i]));
      assert log[i] == front[i];
      forall j | i < j < |log| ensures log[j].key != k {
        assert j < n ==> log[j] == front[j];
      }
      assert IsLastEvent(log, k, i);
    }
  }

  /** The row carries the data, turn and time of the last use. */
  lemma {:induction false} DataIsLastUse(log: seq<ResourceEvent>, k: Key)
    requires k in Replay(log)
    ensures exists i :: IsLastUse(log, k, i) && Replay(log)[k].data == log[i].data
                        && Replay(log)[k].lastTurn == log[i].turn && Replay(log)[k].lastSeen == log[i].at
  {
    var front, n := log[..|log| - 1], |log| - 1;
    if log[n].key == k && IsUse(log[n]) {
      assert IsLastUse(log, k, n);
    } else {
      DataIsLastUse(front, k);
      var i :| IsLastUse(front, k, i) && Replay(front)[k].data == front[i].data
               && Replay(front)[k].lastTurn == front[i].turn && Replay(front)[k].lastSeen == front[i].at;
      LastUseStays(log, k, i);
    }
  }

  lemma LastUseStays(log: seq<ResourceEvent>, k: Key, i: int)
    requires log != [] && IsLastUse(log[..|log| - 1], k, i) && !(log[|log| - 1].key == k && IsUse(log[|log| - 1]))
    ensures IsLastUse(log, k, i) && log[i] == log[..|log| - 1][i]
  {
    var front, n := log[..|log| - 1], |log| - 1;
    forall j | i < j < |log| ensures !(log[j].key == k && IsUse(log[j])) {
      assert j < n ==> log[j] == front[j];
    }
  }

  // ---------- One update ----------

  function UseEvent(rows: map<Key, Row>, r: Related, turn: TurnId, now: int): ResourceEvent {
    ResourceEvent(r.key, if r.key in rows then Refreshed else Seen, turn, r.data, now)
  }

  /** A removal is logged with the data of the row, if there is one. */
  function RemoveEvent(rows: map<Key, Row>, k: Key, turn: TurnId, now: int): ResourceEvent
    requires SplitKey(k).Some?
  {
    var parts := SplitKey(k).value;
    ResourceEvent(k, Removed, turn, if k in rows then rows[k].data else Data(parts.0, parts.1, None, None), now)
  }

  /** The events of the related resources, one each, in order. */
  function UseEvents(rows: map<Key, Row>, related: seq<Related>, turn: TurnId, now: int): (l: seq<ResourceEvent>)
    decreases |related|
  {
    if related == [] then []
    else
      var e := UseEvent(rows, related[0], turn, now);
      [e] + UseEvents(Step(rows, e), related[1..], turn, now)
  }

  function RemoveEvents(rows: map<Key, Row>, removed: seq<Key>, turn: TurnId, now: int): (l: seq<ResourceEvent>)
    requires AllSplit(removed)
    decreases |removed|
  {
    if removed == [] then []
    else
      var e := RemoveEvent(rows, removed[0], turn, now);
      [e] + RemoveEvents(Step(rows, e), removed[1..], turn, now)
  }

  function StepAll(rows: map<Key, Row>, l: seq<ResourceEvent>): map<Key, Row>
    decreases |l|
  {
    if l == [] then rows else StepAll(Step(rows, l[0]), l[1..])
  }

  /** One use event for every related resource, in their order, with their data. */
  lemma {:induction false} UseEventsShape(rows: map<Key, Row>, related: seq<Related>, turn: TurnId, now: int)
    ensures var l := UseEvents(rows, related, turn, now);
            && |l| == |related|
            && forall i :: 0 <= i < |l| ==>
                 && l[i].key == related[i].key && l[i].data == related[i].data && IsUse(l[i])
                 && l[i].turn == turn && l[i].at == now
    decreases |related|
  {
    if related != [] {
      UseEventsShape(Step(rows, UseEvent(rows, related[0], turn, now)), related[1..], turn, now);
    }
  }

  /** One removal event for every removed key, in their order. */
  lemma {:induction false} RemoveEventsShape(rows: map<Key, Row>, removed: seq<Key>, turn: TurnId, now: int)
    requires AllSplit(removed)
    ensures var l := RemoveEvents(rows, removed, turn, now);
            && |l| == |removed|
            && forall i :: 0 <= i < |l| ==>
                 l[i].key == removed[i] && l[i].action == Removed && l[i].turn == turn && l[i].at == now
    decreases |removed|
  {
    if removed != [] {
      RemoveEventsShape(Step(rows, RemoveEvent(rows, removed[0], turn, now)), removed[1..], turn, now);
    }
  }

  predicate AllSplit(removed: seq<Key>) {
    forall k :: k in removed ==> SplitKey(k).Some?
  }

  /** All the events of an update. */
  function UpdateEvents(rows: map<Key, Row>, u: Update, turn: TurnId, now: int): seq<ResourceEvent>
    requires AllSplit(u.removed)
  {
    var uses := UseEvents(rows, u.related, turn, now);
    uses + RemoveEvents(StepAll(rows, uses), u.removed, turn, now)
  }

  predicate IsEmpty(u: Update) {
    u.related == [] && u.removed == []
  }

  lemma {:induction false} StepAllAppend(rows: map<Key, Row>, a: seq<ResourceEvent>, b: seq<ResourceEvent>)
    ensures StepAll(rows, a + b) == StepAll(StepAll(rows, a), b)
    decreases |a|
  {
    if a == [] {
      assert a + b == b;
    } else {
      assert (a + b)[0] == a[0] && (a + b)[1..] == a[1..] + b;
      StepAllAppend(Step(rows, a[0]), a[1..], b);
    }
  }

  lemma StepAllOne(rows: map<Key, Row>, e: ResourceEvent)
    ensures StepAll(rows, [e]) == Step(rows, e)
  {
    assert [e][1..] == [];
  }

  // ---------- The store ----------

  /** The table replays the log, and uses are labelled correctly. */
  ghost predicate Consistent(rows: map<Key, Row>, log: seq<ResourceEvent>) {
    rows == Replay(log) && WellLabelled(log)
  }

  lemma AppendUse(rows: map<Key, Row>, log: seq<ResourceEvent>, r: Related, turn: TurnId, now: int)
    requires Consistent(rows, log)
    ensures var e := UseEvent(rows, r, turn, now);
            Consistent(Step(rows, e), log + [e])
  {
    var e := UseEvent(rows, r, turn, now);
    ReplaySnoc(log, e);
    UseCountIsUses(log, r.key);
    UsedIsUses(log, r.key);
    AppendLabelled(log, e);
  }

  lemma AppendLabelled(log: seq<ResourceEvent>, e: ResourceEvent)
    requires WellLabelled(log)
    requires IsUse(e) ==> (e.action == Seen <==> !UsedBefore(log, |log|, e.key))
    ensures WellLabelled(log + [e])
  {
    var all := log + [e];
    forall i | 0 <= i < |all| && IsUse(all[i]) ensures all[i].action == Seen <==> !UsedBefore(all, i, all[i].key) {
      assert all[..|log|] == log;
      UsedBeforeSame(all, |log|, i, all[i].key);
    }
  }

  lemma AppendRemove(rows: map<Key, Row>, log: seq<ResourceEvent>, k: Key, turn: TurnId, now: int)
    requires Consistent(rows, log) && SplitKey(k).Some?
    ensures var e := RemoveEvent(rows, k, turn, now);
            Consistent(Step(rows, e), log + [e])
  {
    var e := RemoveEvent(rows, k, turn, now);
    ReplaySnoc(log, e);
    AppendLabelled(log, e);
  }

  lemma LogUse(
    rows: map<Key, Row>, log: seq<ResourceEvent>, events: seq<ResourceEvent>, r: Related, turn: TurnId, now: int)
    requires Consistent(rows, log + events)
    ensures var e := UseEvent(rows, r, turn, now);
            Consistent(Step(rows, e), log + (events + [e]))
  {
    AppendUse(rows, log + events, r, turn, now);
    assert (log + events) + [UseEvent(rows, r, turn, now)] == log + (events + [UseEvent(rows, r, turn, now)]);
  }

  lemma LogRemove(
    rows: map<Key, Row>, log: seq<ResourceEvent>, events: seq<ResourceEvent>, k: Key, turn: TurnId, now: int)
    requires Consistent(rows, log + events) && SplitKey(k).Some?
    ensures var e := RemoveEvent(rows, k, turn, now);
            Consistent(Step(rows, e), log + (events + [e]))
  {
    AppendRemove(rows, log + events, k, turn, now);
    assert (log + events) + [RemoveEvent(rows, k, turn, now)] == log + (events + [RemoveEvent(rows, k, turn, now)]);
  }

  lemma {:induction false} UsesConsistent(
    rows: map<Key, Row>, log: seq<ResourceEvent>, related: seq<Related>, turn: TurnId, now: int)
    requires Consistent(rows, log)
    ensures var l := UseEvents(rows, related, turn, now);
            Consistent(StepAll(rows, l), log + l)
    decreases |related|
  {
    if related == [] {
      assert log + [] == log;
    } else {
      var e := UseEvent(rows, related[0], turn, now);
      AppendUse(rows, log, related[0], turn, now);
      UsesConsistent(Step(rows, e), log + [e], related[1..], turn, now);
      var tail := UseEvents(Step(rows, e), related[1..], turn, now);
      assert (log + [e]) + tail == log + ([e] + tail);
      assert ([e] + tail)[1..] == tail;
    }
  }

  lemma {:induction false} RemovesConsistent(
    rows: map<Key, Row>, log: seq<ResourceEvent>, removed: seq<Key>, turn: TurnId, now: int)
    requires Consistent(rows, log) && AllSplit(removed)
    ensures var l := RemoveEvents(rows, removed, turn, now);
            Consistent(StepAll(rows, l), log + l)
    decreases |removed|
  {
    if removed == [] {
      assert log + [] == log;
    } else {
      var e := RemoveEvent(rows, removed[0], turn, now);
      AppendRemove(rows, log, removed[0], turn, now);
      RemovesConsistent(Step(rows, e), log + [e], removed[1..], turn, now);
      var tail := RemoveEvents(Step(rows, e), removed[1..], turn, now);
      assert (log + [e]) + tail == log + ([e] + tail);
      assert ([e] + tail)[1..] == tail;
    }
  }

  /** An update keeps the table equal to the replay of the log. */
  lemma UpdateConsistent(rows: map<Key, Row>, log: seq<ResourceEvent>, u: Update, turn: TurnId, now: int)
    requires Consistent(rows, log) && AllSplit(u.removed)
    ensures var events := UpdateEvents(rows, u, turn, now);
            Consistent(StepAll(rows, events), log + events)
  {
    var uses := UseEvents(rows, u.related, turn, now);
    UsesConsistent(rows, log, u.related, turn, now);
    RemovesConsistent(StepAll(rows, uses), log + uses, u.removed, turn, now);
    UpdateApplied(rows, log, u, turn, now, RemoveEvents(StepAll(rows, uses), u.removed, turn, now));
  }

  lemma UpdateApplied(
    rows: map<Key, Row>, log: seq<ResourceEvent>, u: Update, turn: TurnId, now: int, removals: seq<ResourceEvent>)
    requires AllSplit(u.removed)
    requires var uses := UseEvents(rows, u.related, turn, now);
             && removals == RemoveEvents(StepAll(rows, uses), u.removed, turn, now)
             && Consistent(StepAll(StepAll(rows, uses), removals), (log + uses) + removals)
    ensures var events := UpdateEvents(rows, u, turn, now);
            Consistent(StepAll(rows, events), log + events)
    ensures var uses := UseEvents(rows, u.related, turn, now);
            && UpdateEvents(rows, u, turn, now) == uses + removals
            && StepAll(StepAll(rows, uses), removals) == StepAll(rows, uses + removals)
  {
    var uses := UseEvents(rows, u.related, turn, now);
    StepAllAppend(rows, uses, removals);
    Regroup(StepAll(StepAll(rows, uses), removals), log, uses, removals);
  }

  lemma Regroup(rows: map<Key, Row>, log: seq<ResourceEvent>, a: seq<ResourceEvent>, b: seq<ResourceEvent>)
    requires Consistent(rows, (log + a) + b)
    ensures Consistent(rows, log + (a + b))
  {
    assert (log + a) + b == log + (a + b);
  }

  class ContextStore {
    var rows: map<Key, Row>
    var log: seq<ResourceEvent>
    var version: nat
    /** The number of non-empty updates so far. */
    ghost var updates: nat

    ghost predicate Valid()
      reads this
    {
      Consistent(rows, log) && version == updates
    }

    constructor ()
      ensures Valid() && rows == map[] && log == [] && version == 0
    {
      rows, log, version, updates := map[], [], 0, 0;
    }

    /** `upsert_chain_resource` and the event that goes with it */
    method Upsert(current: map<Key, Row>, r: Related, turn: TurnId, now: int) returns (next: map<Key, Row>, e: ResourceEvent)
      ensures e == UseEvent(current, r, turn, now) && next == Step(current, e)
    {
      if r.key !in current {
        next := current[r.key := Row(r.data, turn, turn, now, now, 1, true, None)];
        e := ResourceEvent(r.key, Seen, turn, r.data, now);
      } else {
        var row := current[r.key];
        row := row.(data := r.data);
        row := row.(lastTurn := turn, lastSeen := now);
        row := row.(useCount := row.useCount + 1);
        row := row.(active := true, removedAt := None);
        next := current[r.key := row];
        e := ResourceEvent(r.key, Refreshed, turn, r.data, now);
      }
    }

    /** The loop over the related resources, on a working copy of the table. */
    method ApplyUses(related: seq<Related>, turn: TurnId, now: int)
      returns (current: map<Key, Row>, events: seq<ResourceEvent>, items: seq<(Key, Row)>)
      requires Consistent(rows, log)
      ensures events == UseEvents(rows, related, turn, now) && current == StepAll(rows, events)
      ensures Consistent(current, log + events)
      ensures IsRefreshed(items, related, turn, now)
    {
      current, events, items := rows, [], [];
      assert log + events == log && related[0..] == related;
      var i := 0;
      while i < |related|
        invariant 0 <= i <= |related|
        invariant Consistent(current, log + events)
        invariant events + UseEvents(current, related[i..], turn, now) == UseEvents(rows, related, turn, now)
        invariant current == StepAll(rows, events)
        invariant IsRefreshed(items, related[..i], turn, now)
      {
        LogUse(current, log, events, related[i], turn, now);
        NextUse(rows, current, events, related, i, turn, now);
        var e;
        current, e := Upsert(current, related[i], turn, now);
        RefreshedSnoc(items, related, i, turn, now, current[related[i].key]);
        events := events + [e];
        items := items + [(related[i].key, current[related[i].key])];
        i := i + 1;
      }
      assert related[i..] == [] && related[..i] == related;
    }

    /** The loop over the removed keys; it stops at a key that cannot be split. */
    method ApplyRemovals(
      base: map<Key, Row>, ghost before: seq<ResourceEvent>, removed: seq<Key>, turn: TurnId, now: int)
      returns (ok: bool, current: map<Key, Row>, events: seq<ResourceEvent>)
      requires Consistent(base, before)
      ensures ok <==> AllSplit(removed)
      ensures ok ==> events == RemoveEvents(base, removed, turn, now) && current == StepAll(base, events)
      ensures ok ==> Consistent(current, before + events)
    {
      current, events := base, [];
      assert before + events == before && removed[..0] == [];
      var i := 0;
      while i < |removed|
        invariant 0 <= i <= |removed|
        invariant AllSplit(removed[..i])
        invariant Consistent(current, before + events)
        invariant events == RemoveEvents(base, removed[..i], turn, now) && current == StepAll(base, events)
      {
        var k := removed[i];
        if SplitKey(k).None? {
          assert k in removed;
          return false, current, events;
        }
        var e := RemoveEvent(current, k, turn, now);
        LogRemove(current, before, events, k, turn, now);
        NextRemove(base, removed, i, turn, now);
        if k in current {
          var row := current[k];
          row := row.(active := false, removedAt := Some(now));
          current := current[k := row];
        }
        events := events + [e];
        i := i + 1;
      }
      assert removed[..i] == removed;
      return true, current, events;
    }

    /** `apply_in_transaction`; a key that cannot be split raises, and everything is rolled back. */
    method ApplyInTransaction(update: Option<Update>, turn: TurnId, now: int) returns (r: Result<Option<Refresh>, ()>)
      requires Valid()
      modifies this
      ensures Valid()
      ensures r.Failure? <==> update.Some? && !AllSplit(update.value.removed)
      ensures r.Failure? || update.None? ==> rows == old(rows) && log == old(log) && version == old(version)
      ensures r.Success? && update.Some? ==>
                && log == old(log) + UpdateEvents(old(rows), update.value, turn, now)
                && rows == StepAll(old(rows), UpdateEvents(old(rows), update.value, turn, now))
      ensures r.Success? && (update.None? || IsEmpty(update.value)) ==> r.value.None? && version == old(version)
      ensures r.Success? && update.Some? && !IsEmpty(update.value) ==>
                && version == old(version) + 1 && r.value.Some?
                && r.value.value.removed == update.value.removed
                && r.value.value.expected == old(version) && r.value.value.version == version
                && IsRefreshed(r.value.value.items, update.value.related, turn, now)
    {
      if update.None? {
        return Success(None);
      }
      var u := update.value;
      var used, uses, items := ApplyUses(u.related, turn, now);
      var ok, current, removals := ApplyRemovals(used, log + uses, u.removed, turn, now);
      if !ok {
        return Failure(());
      }
      UpdateApplied(rows, log, u, turn, now, removals);
      rows, log := current, log + (uses + removals);
      if |items| == 0 && |u.removed| == 0 {
        return Success(None);
      }
      var previous := version;
      version := version + 1;
      updates := updates + 1;
      return Success(Some(Refresh(items, u.removed, previous, version)));
    }
  }

  /** The items to be refreshed carry the data of the update, the turn and the time. */
  ghost predicate IsRefreshed(items: seq<(Key, Row)>, related: seq<Related>, turn: TurnId, now: int) {
    && |items| == |related|
    && forall i :: 0 <= i < |items| ==>
         && items[i].0 == related[i].key && items[i].1.data == related[i].data
         && items[i].1.lastTurn == turn && items[i].1.lastSeen == now && items[i].1.active
  }

  lemma RefreshedSnoc(items: seq<(Key, Row)>, related: seq<Related>, i: nat, turn: TurnId, now: int, row: Row)
    requires i < |related| && IsRefreshed(items, related[..i], turn, now)
    requires row.data == related[i].data && row.lastTurn == turn && row.lastSeen == now && row.active
    ensures IsRefreshed(items + [(related[i].key, row)], related[..i + 1], turn, now)
  {
    var all, l := items + [(related[i].key, row)], related[..i + 1];
    forall j | 0 <= j < |all|
      ensures all[j].0 == l[j].key && all[j].1.data == l[j].data && all[j].1.lastTurn == turn
              && all[j].1.lastSeen == now && all[j].1.active
    {
      assert j < i ==> all[j] == items[j] && l[j] == related[..i][j];
    }
  }

  lemma NextUse(
    rows: map<Key, Row>, current: map<Key, Row>, events: seq<ResourceEvent>, related: seq<Related>, i: nat, turn: TurnId,
    now: int)
    requires i < |related| && current == StepAll(rows, events)
    requires events + UseEvents(current, related[i..], turn, now) == UseEvents(rows, related, turn, now)
    ensures var e := UseEvent(current, related[i], turn, now);
            && (events + [e]) + UseEvents(Step(current, e), related[i + 1..], turn, now) == UseEvents(rows, related, turn, now)
            && Step(current, e) == StepAll(rows, events + [e])
  {
    var e := UseEvent(current, related[i], turn, now);
    NextUseEvent(current, events, related, i, turn, now);
    StepAllAppend(rows, events, [e]);
    StepAllOne(current, e);
  }

  lemma NextUseEvent(
    current: map<Key, Row>, events: seq<ResourceEvent>, related: seq<Related>, i: nat, turn: TurnId, now: int)
    requires i < |related|
    ensures var e := UseEvent(current, related[i], turn, now);
            events + UseEvents(current, related[i..], turn, now) ==
            (events + [e]) + UseEvents(Step(current, e), related[i + 1..], turn, now)
  {
    var e := UseEvent(current, related[i], turn, now);
    var tail := UseEvents(Step(current, e), related[i + 1..], turn, now);
    assert related[i..][1..] == related[i + 1..] && related[i..][0] == related[i];
    assert UseEvents(current, related[i..], turn, now) == [e] + tail;
    assert events + ([e] + tail) == (events + [e]) + tail;
  }

  lemma {:induction false} RemoveSnoc(rows: map<Key, Row>, a: seq<Key>, k: Key, turn: TurnId, now: int)
    requires AllSplit(a) && AllSplit(a + [k])
    ensures SplitKey(k).Some?
    ensures var l := RemoveEvents(rows, a, turn, now);
            RemoveEvents(rows, a + [k], turn, now) == l + [RemoveEvent(StepAll(rows, l), k, turn, now)]
    decreases |a|
  {
    var all := a + [k];
    assert all[|a|] == k && k in all;
    if a == [] {
      assert all[1..] == [];
    } else {
      var e := RemoveEvent(rows, a[0], turn, now);
      assert all[0] == a[0] && all[1..] == a[1..] + [k];
      RemoveSnoc(Step(rows, e), a[1..], k, turn, now);
    }
  }

  lemma NextRemove(rows: map<Key, Row>, removed: seq<Key>, i: nat, turn: TurnId, now: int)
    requires i < |removed| && AllSplit(removed[..i]) && SplitKey(removed[i]).Some?
    ensures AllSplit(removed[..i + 1])
    ensures var l := RemoveEvents(rows, removed[..i], turn, now);
            var e := RemoveEvent(StepAll(rows, l), removed[i], turn, now);
            && RemoveEvents(rows, removed[..i + 1], turn, now) == l + [e]
            && StepAll(rows, l + [e]) == Step(StepAll(rows, l), e)
  {
    assert removed[..i + 1] == removed[..i] + [removed[i]];
    RemoveSnoc(rows, removed[..i], removed[i], turn, now);
    var l := RemoveEvents(rows, removed[..i], turn, now);
    var e := RemoveEvent(StepAll(rows, l), removed[i], turn, now);
    StepAllAppend(rows, l, [e]);
    StepAllOne(StepAll(rows, l), e);
  }

  /** What the table and the log say about one resource agree. */
  lemma FactsMatchLog(rows: map<Key, Row>, log: seq<ResourceEvent>, k: Key)
    requires Consistent(rows, log)
    ensures Seens(log, k) == if k in rows then 1 else 0
    ensures k in rows ==> rows[k].useCount == Uses(log, k) > 0
    ensures k in rows ==> exists i :: IsLastEvent(log, k, i) && (rows[k].active <==> log[i].action != Removed)
    ensures k in rows ==> exists i :: IsLastUse(log, k, i) && rows[k].data == log[i].data && rows[k].lastSeen == log[i].at
    ensures k !in rows ==> forall i :: 0 <= i < |log| && log[i].key == k ==> log[i].action == Removed
  {
    UseCountIsUses(log, k);
    SeenOnce(log, k);
    if k in rows {
      ActiveIsLastEvent(log, k);
      DataIsLastUse(log, k);
    } else {
      UsedIsUses(log, k);
    }
  }

  // ---------- What a valid update does to the table ----------

  function RelatedKeys(related: seq<Related>): (s: seq<Key>)
    ensures |s| == |related| && forall i :: 0 <= i < |s| ==> s[i] == related[i].key
  {
    seq(|related|, i requires 0 <= i < |related| => related[i].key)
  }

  /** What `_validate_chain_updates` demands of the resources of an update. */
  ghost predicate ValidUpdate(u: Update) {
    && AllSplit(u.removed) && Distinct(RelatedKeys(u.related)) && Distinct(u.removed)
    && forall r :: r in u.related ==> r.key !in u.removed
  }

  /** Events of other keys leave a key alone. */
  lemma {:induction false} StepAllOther(rows: map<Key, Row>, l: seq<ResourceEvent>, k: Key)
    requires forall i :: 0 <= i < |l| ==> l[i].key != k
    ensures k in StepAll(rows, l) <==> k in rows
    ensures k in rows ==> StepAll(rows, l)[k] == rows[k]
    decreases |l|
  {
    if l != [] {
      StepAllOther(Step(rows, l[0]), l[1..], k);
    }
  }

  /** A key with exactly one event is changed by that event. */
  lemma StepAllAt(rows: map<Key, Row>, l: seq<ResourceEvent>, i: nat)
    requires i < |l| && forall j :: 0 <= j < |l| && j != i ==> l[j].key != l[i].key
    ensures var k, b := l[i].key, StepAll(rows, l);
            && (IsUse(l[i]) ==> k in b && b[k].active && b[k].lastSeen == l[i].at && b[k].lastTurn == l[i].turn
                                && b[k].data == l[i].data)
            && (!IsUse(l[i]) ==> k in b ==> !b[k].active)
  {
    var k := l[i].key;
    var before, after := l[..i], l[i + 1..];
    assert l == before + ([l[i]] + after);
    StepAllAppend(rows, before, [l[i]] + after);
    StepAllOther(rows, before, k);
    var mid := StepAll(rows, before);
    assert ([l[i]] + after)[1..] == after;
    StepAllOther(Step(mid, l[i]), after, k);
  }

  /** The events of an update: first the uses, then the removals, in order. */
  lemma UpdateShape(rows: map<Key, Row>, u: Update, turn: TurnId, now: int)
    requires AllSplit(u.removed)
    ensures var l, n := UpdateEvents(rows, u, turn, now), |u.related|;
            && |l| == n + |u.removed|
            && (forall i :: 0 <= i < |l| ==> l[i].key == if i < n then u.related[i].key else u.removed[i - n])
            && (forall i :: 0 <= i < |l| ==> (IsUse(l[i]) <==> i < n) && l[i].turn == turn && l[i].at == now)
            && (forall i :: 0 <= i < n ==> l[i].data == u.related[i].data)
  {
    var uses := UseEvents(rows, u.related, turn, now);
    UseEventsShape(rows, u.related, turn, now);
    RemoveEventsShape(StepAll(rows, uses), u.removed, turn, now);
  }

  /** A related resource is active, and just seen, after a valid update. */
  lemma RelatedRow(rows: map<Key, Row>, u: Update, turn: TurnId, now: int, i: nat)
    requires ValidUpdate(u) && i < |u.related|
    ensures var b, k := StepAll(rows, UpdateEvents(rows, u, turn, now)), u.related[i].key;
            k in b && b[k].active && b[k].lastSeen == now && b[k].lastTurn == turn && b[k].data == u.related[i].data
  {
    var l := UpdateEvents(rows, u, turn, now);
    UpdateShape(rows, u, turn, now);
    OneEvent(u, l, i, |u.related|);
    StepAllAt(rows, l, i);
  }

  /** A removed resource is not active after a valid update. */
  lemma RemovedRow(rows: map<Key, Row>, u: Update, turn: TurnId, now: int, k: Key)
    requires ValidUpdate(u) && k in u.removed
    ensures var b := StepAll(rows, UpdateEvents(rows, u, turn, now));
            k in b ==> !b[k].active
  {
    var l := UpdateEvents(rows, u, turn, now);
    var i :| 0 <= i < |u.removed| && u.removed[i] == k;
    UpdateShape(rows, u, turn, now);
    OneEvent(u, l, |u.related| + i, |u.related|);
    StepAllAt(rows, l, |u.related| + i);
  }

  /** All other resources stay as they are. */
  lemma OtherRow(rows: map<Key, Row>, u: Update, turn: TurnId, now: int, k: Key)
    requires ValidUpdate(u) && k !in RelatedKeys(u.related) && k !in u.removed
    ensures var b := StepAll(rows, UpdateEvents(rows, u, turn, now));
            (k in b <==> k in rows) && (k in rows ==> b[k] == rows[k])
  {
    var l := UpdateEvents(rows, u, turn, now);
    UpdateShape(rows, u, turn, now);
    forall i | 0 <= i < |l| ensures l[i].key != k {
      if i < |u.related| {
        assert RelatedKeys(u.related)[i] == l[i].key;
      } else {
        assert u.removed[i - |u.related|] == l[i].key;
      }
    }
    StepAllOther(rows, l, k);
  }

  /** In a valid update every key has at most one event. */
  lemma OneEvent(u: Update, l: seq<ResourceEvent>, i: nat, n: nat)
    requires ValidUpdate(u) && n == |u.related| && |l| == n + |u.removed| && i < |l|
    requires forall j :: 0 <= j < |l| ==> l[j].key == if j < n then u.related[j].key else u.removed[j - n]
    ensures forall j :: 0 <= j < |l| && j != i ==> l[j].key != l[i].key
  {
    forall j | 0 <= j < |l| && j != i ensures l[j].key != l[i].key {
      if i < n && j < n {
        assert RelatedKeys(u.related)[i] == u.related[i].key && RelatedKeys(u.related)[j] == u.related[j].key;
      } else if i < n <= j {
        assert u.related[i] in u.related && u.removed[j - n] in u.removed;
      } else if j < n <= i {
        assert u.related[j] in u.related && u.removed[i - n] in u.removed;
      }
    }
  }
}
