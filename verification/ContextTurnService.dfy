/**
  The completion of a turn as the program has it: checks in their order, a loop that
  validates the chain updates, and a loop that writes one node per target chain.
 */
module ContextTurnService {
  import opened Common
  import F = ContextFacts
  import opened ContextTurns

  lemma NextUnique(nodes: set<Node>, c: ChainId, m: nat, n: nat)
    requires IsNext(nodes, c, m) && IsNext(nodes, c, n)
    ensures m == n
  {
    assert m > 0 ==> m - 1 < n;
    assert n > 0 ==> n - 1 < m;
  }

  /** `get_next_sequence`: one more than the greatest sequence number of the chain, or 0. */
  method GetNextSequence(nodes: set<Node>, c: ChainId) returns (n: nat)
    ensures n == NextSequence(nodes, c)
  {
    n := 0;
    var rest := nodes;
    while |rest| > 0
      invariant rest <= nodes
      invariant forall x :: x in nodes && x !in rest && x.chain == c ==> x.sequence < n
      invariant n > 0 ==> HasNode(nodes, c, n - 1)
    {
      var x := Pick(rest);
      if x.chain == c && n <= x.sequence {
        n := x.sequence + 1;
        assert x in nodes && x.chain == c && x.sequence == n - 1;
      }
      rest := rest - {x};
    }
    assert rest == {};
    NextIs(nodes, c);
    NextUnique(nodes, c, n, NextSequence(nodes, c));
  }

  /** The updates by chain, for the first i updates. */
  ghost predicate IsMap(updates: seq<ChainUpdate>, m: map<ChainId, ChainUpdate>) {
    && (forall i :: 0 <= i < |updates| ==> updates[i].chain in m && m[updates[i].chain] == updates[i])
    && (forall c :: c in m ==> m[c] in updates && m[c].chain == c)
  }

  lemma MapIsLookup(updates: seq<ChainUpdate>, m: map<ChainId, ChainUpdate>, c: ChainId)
    requires IsMap(updates, m)
    ensures UpdateFor(updates, c) == if c in m then Some(m[c]) else None
  {
    var u := UpdateFor(updates, c);
    if u.Some? {
      var i :| 0 <= i < |updates| && updates[i] == u.value;
    }
  }

  lemma MapNext(updates: seq<ChainUpdate>, m: map<ChainId, ChainUpdate>, i: nat)
    requires i < |updates| && IsMap(updates[..i], m) && updates[i].chain !in m
    ensures IsMap(updates[..i + 1], m[updates[i].chain := updates[i]])
  {
    var next := updates[..i + 1];
    assert next == updates[..i] + [updates[i]];
    forall j | 0 <= j < |next|
      ensures next[j].chain in m[updates[i].chain := updates[i]] && m[updates[i].chain := updates[i]][next[j].chain] == next[j]
    {
      assert j < i ==> next[j] == updates[..i][j];
    }
  }

  lemma ValidNext(updates: seq<ChainUpdate>, m: map<ChainId, ChainUpdate>, i: nat, targets: seq<ChainId>, tasks: seq<TaskId>)
    requires i < |updates| && IsMap(updates[..i], m) && ValidUpdates(updates[..i], targets, tasks)
    ensures ValidUpdates(updates[..i + 1], targets, tasks) <==>
            updates[i].chain !in m && ValidChainUpdate(updates[i], targets, tasks)
  {
    var front, next := updates[..i], updates[..i + 1];
    assert next == front + [updates[i]];
    assert ChainsOf(next) == ChainsOf(front) + [updates[i].chain];
    if updates[i].chain in m {
      var j :| 0 <= j < |front| && front[j] == m[updates[i].chain];
      assert ChainsOf(next)[j] == ChainsOf(next)[i];
    } else {
      forall j | 0 <= j < i ensures ChainsOf(front)[j] != updates[i].chain {
        assert front[j].chain in m;
      }
      if ValidChainUpdate(updates[i], targets, tasks) {
        forall j | 0 <= j < |next| ensures ValidChainUpdate(next[j], targets, tasks) {
          assert j < i ==> next[j] == front[j];
        }
        assert Distinct(ChainsOf(next));
      } else {
        assert next[i] == updates[i];
      }
    }
  }

  lemma ValidPrefix(updates: seq<ChainUpdate>, n: nat, targets: seq<ChainId>, tasks: seq<TaskId>)
    requires n <= |updates|
    ensures ValidUpdates(updates, targets, tasks) ==> ValidUpdates(updates[..n], targets, tasks)
  {
    if ValidUpdates(updates, targets, tasks) {
      var front := updates[..n];
      forall i, j | 0 <= i < j < |front| ensures ChainsOf(front)[i] != ChainsOf(front)[j] {
        assert ChainsOf(updates)[i] == ChainsOf(front)[i] && ChainsOf(updates)[j] == ChainsOf(front)[j];
      }
      forall i | 0 <= i < |front| ensures ValidChainUpdate(front[i], targets, tasks) {
        assert front[i] == updates[i];
      }
    }
  }

  /** `_validate_chain_updates` */
  method ValidateChainUpdates(updates: seq<ChainUpdate>, targets: seq<ChainId>, tasks: seq<TaskId>)
    returns (ok: bool, updateMap: map<ChainId, ChainUpdate>)
    ensures ok <==> ValidUpdates(updates, targets, tasks)
    ensures ok ==> IsMap(updates, updateMap)
  {
    updateMap := map[];
    var i := 0;
    while i < |updates|
      invariant 0 <= i <= |updates|
      invariant IsMap(updates[..i], updateMap) && ValidUpdates(updates[..i], targets, tasks)
    {
      var u := updates[i];
      ValidNext(updates, updateMap, i, targets, tasks);
      var valid := ValidateChainUpdate(u, targets, tasks);
      if u.chain in updateMap || !valid {
        ValidPrefix(updates, i + 1, targets, tasks);
        return false, updateMap;
      }
      MapNext(updates, updateMap, i);
      updateMap := updateMap[u.chain := u];
      i := i + 1;
    }
    assert updates[..i] == updates;
    return true, updateMap;
  }

  method ValidateChainUpdate(u: ChainUpdate, targets: seq<ChainId>, tasks: seq<TaskId>) returns (ok: bool)
    ensures ok <==> ValidChainUpdate(u, targets, tasks)
  {
    if u.chain !in targets {
      return false;
    }
    if exists t :: t in u.tasks && t !in tasks {
      return false;
    }
    var keys := F.RelatedKeys(u.resources.related);
    if !Distinct(keys) {
      return false;
    }
    if !Distinct(u.resources.removed) {
      return false;
    }
    var i := 0;
    while i < |u.resources.removed|
      invariant 0 <= i <= |u.resources.removed|
      invariant forall j :: 0 <= j < i ==> F.SplitKey(u.resources.removed[j]).Some?
    {
      if F.SplitKey(u.resources.removed[i]).None? {
        assert u.resources.removed[i] in u.resources.removed;
        return false;
      }
      i := i + 1;
    }
    assert F.AllSplit(u.resources.removed);
    ok := forall k :: k in keys ==> k !in u.resources.removed;
    NoConflict(u.resources);
  }

  lemma NoConflict(u: F.Update)
    ensures (forall k :: k in F.RelatedKeys(u.related) ==> k !in u.removed) <==>
            (forall r :: r in u.related ==> r.key !in u.removed)
  {
    var keys := F.RelatedKeys(u.related);
    if forall k :: k in keys ==> k !in u.removed {
      forall r | r in u.related ensures r.key !in u.removed {
        var i :| 0 <= i < |u.related| && u.related[i] == r;
        assert keys[i] in keys;
      }
    }
    if forall r :: r in u.related ==> r.key !in u.removed {
      forall k | k in keys ensures k !in u.removed {
        var i :| 0 <= i < |keys| && keys[i] == k;
        assert u.related[i] in u.related;
      }
    }
  }

  class ContextService {
    var st: Store

    constructor (st: Store)
      ensures this.st == st
    {
      this.st := st;
    }

    method CheckExisting(conversation: ConversationId, existing: seq<ChainId>) returns (e: Option<TurnError>)
      ensures e == ChainError(st, conversation, existing)
    {
      assert existing[0..] == existing;
      var i := 0;
      while i < |existing|
        invariant 0 <= i <= |existing|
        invariant ChainError(st, conversation, existing[i..]) == ChainError(st, conversation, existing)
      {
        var c := existing[i];
        assert existing[i..][0] == c && existing[i..][1..] == existing[i + 1..];
        if c !in st.chains {
          return Some(ChainNotFound);
        }
        if st.chains[c].conversation != conversation {
          return Some(ChainMismatch);
        }
        if st.chains[c].archived {
          return Some(ChainArchived);
        }
        i := i + 1;
      }
      return None;
    }

    /** One node and the resources of every target chain. */
    method AttachTargets(
      targets: seq<ChainId>, t: TurnId, updates: seq<ChainUpdate>, updateMap: map<ChainId, ChainUpdate>, now: int)
      requires Splittable(updates) && IsMap(updates, updateMap)
      requires forall i :: 0 <= i < |targets| ==> targets[i] in st.chains
      modifies this
      ensures st == AttachAll(old(st), targets, t, updates, now)
    {
      assert targets[0..] == targets;
      var i := 0;
      while i < |targets|
        invariant 0 <= i <= |targets|
        invariant st.chains.Keys == old(st).chains.Keys
        invariant AttachAll(st, targets[i..], t, updates, now) == AttachAll(old(st), targets, t, updates, now)
      {
        var c := targets[i];
        assert targets[i..][0] == c && targets[i..][1..] == targets[i + 1..];
        MapIsLookup(updates, updateMap, c);
        var sequence := GetNextSequence(st.nodes, c);
        var u := if c in updateMap then Some(updateMap[c]) else None;
        st := st.(nodes := st.nodes + {NodeOf(c, t, sequence, u)},
                  chains := st.chains[c := Updated(st.chains[c], u, t, now)]);
        i := i + 1;
      }
    }

    /** `_complete_turn_in_transaction` */
    method CompleteTurnInTransaction(t: TurnId, conversation: ConversationId, cmd: Command, proposed: ChainId, now: int)
      returns (r: Result<set<ChainId>, TurnError>)
      modifies this
      ensures (st, r) == CompleteTurn(old(st), t, conversation, cmd, proposed, now)
    {
      if t !in st.turns {
        return Failure(TurnNotFound);
      }
      var turn := st.turns[t];
      if turn.conversation != conversation {
        return Failure(ConversationChanged);
      }
      if turn.status == Completed {
        var linked := set x | x in st.nodes && x.turn == t :: x.chain;
        assert linked == LinkedChains(st, t);
        return if linked == {} then Failure(MissingAttribution) else Success(linked);
      }
      var refusal, updateMap := CheckCommand(t, conversation, cmd, proposed);
      if refusal.Some? {
        return Failure(refusal.value);
      }
      TargetsKnown(st, conversation, cmd, proposed, now);
      UpdatesSplit(cmd.updates, Targets(cmd, proposed), cmd.tasks);
      if CreatesChain(cmd) {
        st := st.(chains := st.chains[NewChainId(cmd, proposed) := Chain(conversation, false, map[], [], 0, now)]);
      }
      var targets := Targets(cmd, proposed);
      AttachAllShape(st, targets, t, cmd.updates, now);
      AttachTargets(targets, t, cmd.updates, updateMap, now);
      turn := turn.(status := Completed, tasks := Dedup(cmd.tasks));
      st := st.(turns := st.turns[t := turn]);
      TargetSet(targets);
      return Success(set c | c in targets);
    }

    method CheckCommand(t: TurnId, conversation: ConversationId, cmd: Command, proposed: ChainId)
      returns (e: Option<TurnError>, updateMap: map<ChainId, ChainUpdate>)
      requires t in st.turns
      ensures e == Refusal(st, t, conversation, cmd, proposed)
      ensures e.None? ==> IsMap(cmd.updates, updateMap)
    {
      updateMap := map[];
      if st.turns[t].status !in {ContextReady, Processing} {
        return Some(StateConflict), updateMap;
      }
      if t !in st.selections {
        return Some(MissingSelection), updateMap;
      }
      if st.selections[t] != conversation {
        return Some(SelectionMismatch), updateMap;
      }
      var targets := Dedup(cmd.existing);
      var createNew := cmd.createNew;
      if cmd.newChain.Some? && !createNew {
        return Some(NewChainNotRequested), updateMap;
      }
      if targets == [] && !createNew {
        createNew := true;
      }
      EmptyTargets(cmd.existing);
      if createNew {
        var newChain := NewChainId(cmd, proposed);
        if newChain in targets {
          return Some(NewChainAlsoExisting), updateMap;
        }
        if newChain in st.chains {
          return Some(ChainExists), updateMap;
        }
        targets := targets + [newChain];
      }
      assert targets == Targets(cmd, proposed);
      var valid;
      valid, updateMap := ValidateChainUpdates(cmd.updates, targets, cmd.tasks);
      if !valid {
        return Some(InvalidUpdates), updateMap;
      }
      e := CheckExisting(conversation, Dedup(cmd.existing));
      if e.None? && exists x :: x in st.nodes && x.turn == t && x.chain in targets {
        assert forall x :: x in st.nodes && x.turn == t && x.chain in targets ==> OnChain(st.nodes, t, x.chain);
        e := Some(NodeExists);
      }
    }
  }

  lemma EmptyTargets(existing: seq<ChainId>)
    ensures Dedup(existing) == [] <==> existing == []
  {
    if existing != [] {
      assert existing[0] in existing && existing[0] in Dedup(existing);
    }
  }

  lemma TargetSet(targets: seq<ChainId>)
    ensures (set c | c in targets) == Elements(targets)
  {
  }
}
