/**
  What the completion of a turn leaves behind: exactly when it is accepted, which nodes it adds
  and what they hold, and which chains it touches.
 */
module TurnOutcomes {
  import opened Common
  import F = ContextFacts
  import opened ContextTurns

  // ---------- When a completion is accepted ----------

  /** A new chain is asked for, or there is no other one. */
  predicate WantsNewChain(cmd: Command) {
    cmd.createNew || cmd.existing == []
  }

  function NewId(cmd: Command, proposed: ChainId): ChainId {
    match cmd.newChain
    case None => proposed
    case Some(c) => c
  }

  /** The chain may be continued by this conversation. */
  predicate Continuable(st: Store, conversation: ConversationId, c: ChainId) {
    c in st.chains && st.chains[c].conversation == conversation && !st.chains[c].archived
  }

  predicate IsTarget(cmd: Command, proposed: ChainId, c: ChainId) {
    c in cmd.existing || (WantsNewChain(cmd) && c == NewId(cmd, proposed))
  }

  /** Each chain is updated at most once, targets only, for tasks of the turn, by a valid update. */
  ghost predicate UpdatesFit(cmd: Command, proposed: ChainId) {
    && (forall i, j :: 0 <= i < j < |cmd.updates| ==> cmd.updates[i].chain != cmd.updates[j].chain)
    && (forall i :: 0 <= i < |cmd.updates| ==> FitsAt(cmd, proposed, i))
  }

  ghost predicate FitsAt(cmd: Command, proposed: ChainId, i: nat)
    requires i < |cmd.updates|
  {
    && IsTarget(cmd, proposed, cmd.updates[i].chain)
    && (forall t :: t in cmd.updates[i].tasks ==> t in cmd.tasks)
    && F.ValidUpdate(cmd.updates[i].resources)
  }

  /** Everything that the completion of a turn demands. */
  ghost predicate MayComplete(st: Store, t: TurnId, conversation: ConversationId, cmd: Command, proposed: ChainId) {
    && t in st.turns && st.turns[t].conversation == conversation && st.turns[t].status in {ContextReady, Processing}
    && t in st.selections && st.selections[t] == conversation
    && (cmd.newChain.Some? ==> cmd.createNew)
    && (WantsNewChain(cmd) ==> NewId(cmd, proposed) !in cmd.existing && NewId(cmd, proposed) !in st.chains)
    && UpdatesFit(cmd, proposed)
    && (forall c :: c in cmd.existing ==> Continuable(st, conversation, c))
    && (forall x :: x in st.nodes && x.turn == t ==> !IsTarget(cmd, proposed, x.chain))
  }

  lemma TargetsAre(cmd: Command, proposed: ChainId, c: ChainId)
    ensures c in Targets(cmd, proposed) <==> IsTarget(cmd, proposed, c)
  {
  }

  lemma UpdatesAre(cmd: Command, proposed: ChainId)
    ensures ValidUpdates(cmd.updates, Targets(cmd, proposed), cmd.tasks) <==> UpdatesFit(cmd, proposed)
  {
    var chains := ChainsOf(cmd.updates);
    forall i | 0 <= i < |cmd.updates|
      ensures cmd.updates[i].chain in Targets(cmd, proposed) <==> IsTarget(cmd, proposed, cmd.updates[i].chain)
    {
      TargetsAre(cmd, proposed, cmd.updates[i].chain);
    }
    if ValidUpdates(cmd.updates, Targets(cmd, proposed), cmd.tasks) {
      forall i, j | 0 <= i < j < |cmd.updates| ensures cmd.updates[i].chain != cmd.updates[j].chain {
        assert chains[i] == cmd.updates[i].chain && chains[j] == cmd.updates[j].chain;
      }
      forall i | 0 <= i < |cmd.updates| ensures FitsAt(cmd, proposed, i) {
        assert ValidChainUpdate(cmd.updates[i], Targets(cmd, proposed), cmd.tasks);
      }
    }
    if UpdatesFit(cmd, proposed) {
      forall i | 0 <= i < |cmd.updates| ensures ValidChainUpdate(cmd.updates[i], Targets(cmd, proposed), cmd.tasks) {
        assert FitsAt(cmd, proposed, i);
      }
    }
  }

  lemma {:induction false} ChainsAreContinuable(st: Store, conversation: ConversationId, existing: seq<ChainId>)
    ensures ChainError(st, conversation, existing).None? <==> forall c :: c in existing ==> Continuable(st, conversation, c)
  {
    if existing != [] {
      var rest := existing[1..];
      ChainsAreContinuable(st, conversation, rest);
      assert existing == [existing[0]] + rest;
      assert forall c :: c in existing <==> c == existing[0] || c in rest;
      if forall c :: c in existing ==> Continuable(st, conversation, c) {
        assert existing[0] in existing;
        forall c | c in rest ensures Continuable(st, conversation, c) {
          assert c in existing;
        }
      }
    }
  }

  lemma LinkedIs(st: Store, t: TurnId, cmd: Command, proposed: ChainId)
    ensures Linked(st.nodes, t, Targets(cmd, proposed)) <==>
            exists x :: x in st.nodes && x.turn == t && IsTarget(cmd, proposed, x.chain)
  {
    if x :| x in st.nodes && x.turn == t && IsTarget(cmd, proposed, x.chain) {
      TargetsAre(cmd, proposed, x.chain);
      assert OnChain(st.nodes, t, x.chain);
    }
    if Linked(st.nodes, t, Targets(cmd, proposed)) {
      var c :| c in Targets(cmd, proposed) && OnChain(st.nodes, t, c);
      var x :| x in st.nodes && x.turn == t && x.chain == c;
      TargetsAre(cmd, proposed, c);
    }
  }

  /** A turn that is not completed yet is completed by the call exactly if everything that is demanded holds. */
  lemma CompletesIff(st: Store, t: TurnId, conversation: ConversationId, cmd: Command, proposed: ChainId)
    ensures Commits(st, t, conversation, cmd, proposed) <==> MayComplete(st, t, conversation, cmd, proposed)
  {
    UpdatesAre(cmd, proposed);
    ChainsAreContinuable(st, conversation, Dedup(cmd.existing));
    LinkedIs(st, t, cmd, proposed);
  }

  /** A call that completes nothing changes nothing. */
  lemma RefusalChangesNothing(
    st: Store, t: TurnId, conversation: ConversationId, cmd: Command, proposed: ChainId, now: int)
    requires !MayComplete(st, t, conversation, cmd, proposed)
    ensures CompleteTurn(st, t, conversation, cmd, proposed, now).0 == st
    ensures CompleteTurn(st, t, conversation, cmd, proposed, now).1.Success? ==> IsCompleted(st, t)
  {
    CompletesIff(st, t, conversation, cmd, proposed);
  }

  // ---------- What the new nodes hold ----------

  /** The node holds the tasks and the resource keys of the turn's update of its chain, each once, or nothing. */
  ghost predicate HoldsUpdate(x: Node, updates: seq<ChainUpdate>) {
    if i :| 0 <= i < |updates| && updates[i].chain == x.chain then
      && IsFirstOccurrences(x.tasks, updates[i].tasks)
      && IsFirstOccurrences(x.refs, F.RelatedKeys(updates[i].resources.related) + updates[i].resources.removed)
    else x.tasks == [] && x.refs == []
  }

  lemma NodeHolds(c: ChainId, t: TurnId, n: nat, updates: seq<ChainUpdate>)
    requires forall i, j :: 0 <= i < j < |updates| ==> updates[i].chain != updates[j].chain
    ensures HoldsUpdate(NodeOf(c, t, n, UpdateFor(updates, c)), updates)
  {
    var u := UpdateFor(updates, c);
    if u.Some? {
      var i :| 0 <= i < |updates| && updates[i] == u.value;
      assert forall k :: 0 <= k < |updates| && updates[k].chain == c ==> k == i;
      DedupIsFirstOccurrences(u.value.tasks);
      DedupIsFirstOccurrences(F.RelatedKeys(u.value.resources.related) + u.value.resources.removed);
    } else {
      assert forall k :: 0 <= k < |updates| ==> updates[k] in updates;
    }
  }

  lemma {:induction false} AttachedNodesHold(st: Store, targets: seq<ChainId>, t: TurnId, updates: seq<ChainUpdate>, now: int)
    requires Splittable(updates) && forall i :: 0 <= i < |targets| ==> targets[i] in st.chains
    requires forall i, j :: 0 <= i < j < |updates| ==> updates[i].chain != updates[j].chain
    ensures forall x :: x in AttachAll(st, targets, t, updates, now).nodes && x !in st.nodes ==> HoldsUpdate(x, updates)
    decreases |targets|
  {
    if targets != [] {
      NodeHolds(targets[0], t, NextSequence(st.nodes, targets[0]), updates);
      AttachedNodesHold(Attach(st, targets[0], t, updates, now), targets[1..], t, updates, now);
    }
  }

  // ---------- The whole transaction ----------

  /** Chains that are not targets stay; targets are touched now and keep their conversation; a new one belongs to this conversation. */
  ghost predicate ChainsTouched(st: Store, b: Store, conversation: ConversationId, cmd: Command, proposed: ChainId, now: int) {
    && (forall c :: c in b.chains <==> c in st.chains || IsTarget(cmd, proposed, c))
    && (forall c :: c in st.chains && !IsTarget(cmd, proposed, c) ==> c in b.chains && b.chains[c] == st.chains[c])
    && (forall c :: c in b.chains && IsTarget(cmd, proposed, c) ==>
          && b.chains[c].lastActive == now && b.chains[c].conversation == conversation && !b.chains[c].archived)
  }

  lemma {:induction false} AttachTouches(st: Store, targets: seq<ChainId>, t: TurnId, updates: seq<ChainUpdate>, now: int)
    requires Splittable(updates) && forall i :: 0 <= i < |targets| ==> targets[i] in st.chains
    ensures var b := AttachAll(st, targets, t, updates, now);
            && b.chains.Keys == st.chains.Keys
            && (forall c :: c in st.chains && c !in targets ==> b.chains[c] == st.chains[c])
            && (forall c :: c in targets ==>
                  c in b.chains && b.chains[c].lastActive == now && b.chains[c].conversation == st.chains[c].conversation
                  && b.chains[c].archived == st.chains[c].archived)
    decreases |targets|
  {
    if targets != [] {
      var next := Attach(st, targets[0], t, updates, now);
      AttachTouches(next, targets[1..], t, updates, now);
      assert forall c :: c in targets <==> c == targets[0] || c in targets[1..];
    }
  }

  /**
    An accepted completion: the turn holds its tasks, each once; the new nodes are nodes of this
    turn on its targets, one on every target, and hold what was reported for their chains; only
    target chains are touched, and they become active now.
   */
  lemma CompletionOutcome(st: Store, t: TurnId, conversation: ConversationId, cmd: Command, proposed: ChainId, now: int)
    requires StoreOk(st) && MayComplete(st, t, conversation, cmd, proposed)
    ensures var (b, r) := CompleteTurn(st, t, conversation, cmd, proposed, now);
            && r.Success? && (forall c :: c in r.value <==> IsTarget(cmd, proposed, c))
            && t in b.turns && b.turns == st.turns[t := b.turns[t]] && b.selections == st.selections
            && b.turns[t].conversation == conversation && b.turns[t].status == Completed
            && IsFirstOccurrences(b.turns[t].tasks, cmd.tasks)
            && st.nodes <= b.nodes
            && (forall x :: x in b.nodes && x !in st.nodes ==>
                  x.turn == t && IsTarget(cmd, proposed, x.chain) && HoldsUpdate(x, cmd.updates))
            && (forall c :: IsTarget(cmd, proposed, c) ==> OnChain(b.nodes, t, c))
            && ChainsTouched(st, b, conversation, cmd, proposed, now)
  {
    CompletesIff(st, t, conversation, cmd, proposed);
    CompletionRows(st, t, conversation, cmd, proposed, now);
    CompletionNodes(st, t, conversation, cmd, proposed, now);
    CompletionChains(st, t, conversation, cmd, proposed, now);
  }

  lemma CompletionRows(st: Store, t: TurnId, conversation: ConversationId, cmd: Command, proposed: ChainId, now: int)
    requires Commits(st, t, conversation, cmd, proposed)
    ensures var (b, r) := CompleteTurn(st, t, conversation, cmd, proposed, now);
            && r.Success? && (forall c :: c in r.value <==> IsTarget(cmd, proposed, c))
            && t in b.turns && b.turns == st.turns[t := b.turns[t]] && b.selections == st.selections
            && b.turns[t].conversation == conversation && b.turns[t].status == Completed
            && IsFirstOccurrences(b.turns[t].tasks, cmd.tasks)
  {
    var targets := Targets(cmd, proposed);
    TargetsKnown(st, conversation, cmd, proposed, now);
    UpdatesSplit(cmd.updates, targets, cmd.tasks);
    AttachAllShape(WithNewChain(st, conversation, cmd, proposed, now), targets, t, cmd.updates, now);
    DedupIsFirstOccurrences(cmd.tasks);
    forall c ensures c in Elements(targets) <==> IsTarget(cmd, proposed, c) {
      TargetsAre(cmd, proposed, c);
    }
  }

  lemma CompletionNodes(st: Store, t: TurnId, conversation: ConversationId, cmd: Command, proposed: ChainId, now: int)
    requires StoreOk(st) && Commits(st, t, conversation, cmd, proposed)
    ensures var b := CompleteTurn(st, t, conversation, cmd, proposed, now).0;
            && st.nodes <= b.nodes
            && (forall x :: x in b.nodes && x !in st.nodes ==>
                  x.turn == t && IsTarget(cmd, proposed, x.chain) && HoldsUpdate(x, cmd.updates))
            && (forall c :: IsTarget(cmd, proposed, c) ==> OnChain(b.nodes, t, c))
  {
    var targets := Targets(cmd, proposed);
    TargetsKnown(st, conversation, cmd, proposed, now);
    UpdatesSplit(cmd.updates, targets, cmd.tasks);
    TargetsDistinct(cmd, proposed);
    NotLinked(st, t, targets);
    NewChainOk(st, conversation, cmd, proposed, now);
    UpdatesAre(cmd, proposed);
    var a := WithNewChain(st, conversation, cmd, proposed, now);
    AttachAllKeeps(a, targets, t, cmd.updates, now);
    AttachedNodesHold(a, targets, t, cmd.updates, now);
    forall c ensures c in targets <==> IsTarget(cmd, proposed, c) {
      TargetsAre(cmd, proposed, c);
    }
  }

  lemma CompletionChains(st: Store, t: TurnId, conversation: ConversationId, cmd: Command, proposed: ChainId, now: int)
    requires Commits(st, t, conversation, cmd, proposed)
    ensures ChainsTouched(st, CompleteTurn(st, t, conversation, cmd, proposed, now).0, conversation, cmd, proposed, now)
  {
    var targets := Targets(cmd, proposed);
    TargetsKnown(st, conversation, cmd, proposed, now);
    UpdatesSplit(cmd.updates, targets, cmd.tasks);
    ChainsAreContinuable(st, conversation, Dedup(cmd.existing));
    var a := WithNewChain(st, conversation, cmd, proposed, now);
    AttachTouches(a, targets, t, cmd.updates, now);
    forall c ensures c in targets <==> IsTarget(cmd, proposed, c) {
      TargetsAre(cmd, proposed, c);
    }
    assert forall c :: IsTarget(cmd, proposed, c) ==> c in a.chains && a.chains[c].conversation == conversation && !a.chains[c].archived;
  }
}
