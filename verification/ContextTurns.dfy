/**
  The completion of a conversation turn: nodes on context chains, chain resources, and the
  turn's final state in one transaction, which redeliveries must not repeat.
 */
module ContextTurns {
  import opened Common
  import F = ContextFacts

  type TurnId = int
  type ChainId = int
  type ConversationId = int
  type TaskId = int

  datatype TurnStatus = Routing | ContextReady | Processing | Completed | Failed | NeedsClarification

  datatype Turn = Turn(conversation: ConversationId, status: TurnStatus, tasks: seq<TaskId>)

  datatype Chain = Chain(
    conversation: ConversationId, archived: bool, rows: map<F.Key, F.Row>, log: seq<F.ResourceEvent>, version: nat,
    lastActive: int)

  datatype Node = Node(chain: ChainId, turn: TurnId, sequence: nat, tasks: seq<TaskId>, refs: seq<F.Key>)

  datatype Store = Store(
    turns: map<TurnId, Turn>, selections: map<TurnId, ConversationId>, chains: map<ChainId, Chain>, nodes: set<Node>)

  datatype ChainUpdate = ChainUpdate(chain: ChainId, tasks: seq<TaskId>, resources: F.Update)

  datatype Command = Command(
    existing: seq<ChainId>, createNew: bool, newChain: Option<ChainId>, tasks: seq<TaskId>, updates: seq<ChainUpdate>)

  datatype TurnError =
    | TurnNotFound | ConversationChanged | MissingAttribution | StateConflict | MissingSelection | SelectionMismatch
    | NewChainNotRequested | NewChainAlsoExisting | ChainExists | InvalidUpdates
    | ChainNotFound | ChainMismatch | ChainArchived | NodeExists

  // ---------- The specification ----------

  function CreatesChain(cmd: Command): bool {
    cmd.createNew || cmd.existing == []
  }

  function NewChainId(cmd: Command, proposed: ChainId): ChainId {
    if cmd.newChain.Some? then cmd.newChain.value else proposed
  }

  /** Existing chains first, without repetition, then the new one. */
  function Targets(cmd: Command, proposed: ChainId): seq<ChainId> {
    Dedup(cmd.existing) + (if CreatesChain(cmd) then [NewChainId(cmd, proposed)] else [])
  }

  ghost predicate ValidChainUpdate(u: ChainUpdate, targets: seq<ChainId>, tasks: seq<TaskId>) {
    && u.chain in targets && (forall t :: t in u.tasks ==> t in tasks) && F.ValidUpdate(u.resources)
  }

  function ChainsOf(updates: seq<ChainUpdate>): (s: seq<ChainId>)
    ensures |s| == |updates| && forall i :: 0 <= i < |s| ==> s[i] == updates[i].chain
  {
    seq(|updates|, i requires 0 <= i < |updates| => updates[i].chain)
  }

  ghost predicate ValidUpdates(updates: seq<ChainUpdate>, targets: seq<ChainId>, tasks: seq<TaskId>) {
    && Distinct(ChainsOf(updates))
    && forall i :: 0 <= i < |updates| ==> ValidChainUpdate(updates[i], targets, tasks)
  }

  function UpdateFor(updates: seq<ChainUpdate>, c: ChainId): (u: Option<ChainUpdate>)
    ensures u.Some? ==> u.value in updates && u.value.chain == c
    ensures u.None? ==> forall v :: v in updates ==> v.chain != c
  {
    if updates == [] then None
    else if updates[0].chain == c then Some(updates[0]) else UpdateFor(updates[1..], c)
  }

  ghost function ChainError(st: Store, conversation: ConversationId, existing: seq<ChainId>): Option<TurnError> {
    if existing == [] then None
    else
      var c := existing[0];
      if c !in st.chains then Some(ChainNotFound)
      else if st.chains[c].conversation != conversation then Some(ChainMismatch)
      else if st.chains[c].archived then Some(ChainArchived)
      else ChainError(st, conversation, existing[1..])
  }

  /** The first reason to refuse the completion of a turn that is not completed yet. */
  ghost function Refusal(st: Store, t: TurnId, conversation: ConversationId, cmd: Command, proposed: ChainId): Option<TurnError>
    requires t in st.turns
  {
    if st.turns[t].status !in {ContextReady, Processing} then Some(StateConflict)
    else if t !in st.selections then Some(MissingSelection)
    else if st.selections[t] != conversation then Some(SelectionMismatch)
    else if cmd.newChain.Some? && !cmd.createNew then Some(NewChainNotRequested)
    else if CreatesChain(cmd) && NewChainId(cmd, proposed) in cmd.existing then Some(NewChainAlsoExisting)
    else if CreatesChain(cmd) && NewChainId(cmd, proposed) in st.chains then Some(ChainExists)
    else if !ValidUpdates(cmd.updates, Targets(cmd, proposed), cmd.tasks) then Some(InvalidUpdates)
    else if ChainError(st, conversation, Dedup(cmd.existing)).Some? then ChainError(st, conversation, Dedup(cmd.existing))
    else if Linked(st.nodes, t, Targets(cmd, proposed)) then Some(NodeExists)
    else None
  }

  ghost predicate OnChain(nodes: set<Node>, t: TurnId, c: ChainId) {
    exists x :: x in nodes && x.turn == t && x.chain == c
  }

  /** A second node of the turn on a target chain violates the unique constraint on (chain, turn). */
  ghost predicate Linked(nodes: set<Node>, t: TurnId, targets: seq<ChainId>) {
    exists c :: c in targets && OnChain(nodes, t, c)
  }

  ghost predicate IsNext(nodes: set<Node>, c: ChainId, n: nat) {
    && (forall x :: x in nodes && x.chain == c ==> x.sequence < n)
    && (n > 0 ==> HasNode(nodes, c, n - 1))
  }

  ghost predicate HasNode(nodes: set<Node>, c: ChainId, s: nat) {
    exists x :: x in nodes && x.chain == c && x.sequence == s
  }

  ghost function NextSequence(nodes: set<Node>, c: ChainId): (n: nat)
    ensures (exists m: nat :: IsNext(nodes, c, m)) ==> IsNext(nodes, c, n)
  {
    if m: nat :| IsNext(nodes, c, m) then m else 0
  }

  /** The resources of a chain after its update, if it has one. */
  function Updated(chain: Chain, u: Option<ChainUpdate>, t: TurnId, now: int): Chain
    requires u.Some? ==> F.AllSplit(u.value.resources.removed)
  {
    var touched := chain.(lastActive := now);
    if u.None? then touched
    else
      var r := u.value.resources;
      var events := F.UpdateEvents(chain.rows, r, t, now);
      touched.(rows := F.StepAll(chain.rows, events), log := chain.log + events,
               version := if F.IsEmpty(r) then chain.version else chain.version + 1)
  }

  function NodeOf(c: ChainId, t: TurnId, sequence: nat, u: Option<ChainUpdate>): Node {
    if u.None? then Node(c, t, sequence, [], [])
    else Node(c, t, sequence, Dedup(u.value.tasks), Dedup(F.RelatedKeys(u.value.resources.related) + u.value.resources.removed))
  }

  ghost predicate Splittable(updates: seq<ChainUpdate>) {
    forall u :: u in updates ==> F.AllSplit(u.resources.removed)
  }

  /** One target chain: its node and its resources. */
  ghost function Attach(st: Store, c: ChainId, t: TurnId, updates: seq<ChainUpdate>, now: int): Store
    requires c in st.chains && Splittable(updates)
  {
    var u := UpdateFor(updates, c);
    st.(nodes := st.nodes + {NodeOf(c, t, NextSequence(st.nodes, c), u)},
        chains := st.chains[c := Updated(st.chains[c], u, t, now)])
  }

  ghost function AttachAll(st: Store, targets: seq<ChainId>, t: TurnId, updates: seq<ChainUpdate>, now: int): (r: Store)
    requires Splittable(updates) && forall i :: 0 <= i < |targets| ==> targets[i] in st.chains
    decreases |targets|
  {
    if targets == [] then st
    else AttachAll(Attach(st, targets[0], t, updates, now), targets[1..], t, updates, now)
  }

  ghost function WithNewChain(st: Store, conversation: ConversationId, cmd: Command, proposed: ChainId, now: int): Store {
    if CreatesChain(cmd)
    then st.(chains := st.chains[NewChainId(cmd, proposed) := Chain(conversation, false, map[], [], 0, now)]) else st
  }

  ghost function Finish(st: Store, t: TurnId, cmd: Command): Store
    requires t in st.turns
  {
    st.(turns := st.turns[t := st.turns[t].(status := Completed, tasks := Dedup(cmd.tasks))])
  }

  ghost function LinkedChains(st: Store, t: TurnId): set<ChainId> {
    set x | x in st.nodes && x.turn == t :: x.chain
  }

  lemma ChainsKnown(st: Store, conversation: ConversationId, existing: seq<ChainId>)
    requires ChainError(st, conversation, existing).None?
    ensures forall i :: 0 <= i < |existing| ==> existing[i] in st.chains
  {
    if existing != [] {
      ChainsKnown(st, conversation, existing[1..]);
      forall i | 0 <= i < |existing| ensures existing[i] in st.chains {
        if i > 0 {
          assert existing[i] == existing[1..][i - 1];
        }
      }
    }
  }

  lemma TargetsKnown(st: Store, conversation: ConversationId, cmd: Command, proposed: ChainId, now: int)
    requires ChainError(st, conversation, Dedup(cmd.existing)).None?
    ensures var b := WithNewChain(st, conversation, cmd, proposed, now);
            var l := Targets(cmd, proposed);
            forall i :: 0 <= i < |l| ==> l[i] in b.chains
  {
    ChainsKnown(st, conversation, Dedup(cmd.existing));
  }

  lemma UpdatesSplit(updates: seq<ChainUpdate>, targets: seq<ChainId>, tasks: seq<TaskId>)
    requires ValidUpdates(updates, targets, tasks)
    ensures Splittable(updates)
  {
    forall u | u in updates ensures F.AllSplit(u.resources.removed) {
      var i :| 0 <= i < |updates| && updates[i] == u;
      assert ValidChainUpdate(updates[i], targets, tasks);
    }
  }

  /** The transaction: the new state, and the linked chains or an error. */
  ghost function CompleteTurn(
    st: Store, t: TurnId, conversation: ConversationId, cmd: Command, proposed: ChainId, now: int
  ): (r: (Store, Result<set<ChainId>, TurnError>)) {
    if t !in st.turns then (st, Failure(TurnNotFound))
    else if st.turns[t].conversation != conversation then (st, Failure(ConversationChanged))
    else if st.turns[t].status == Completed then
      (st, if LinkedChains(st, t) == {} then Failure(MissingAttribution) else Success(LinkedChains(st, t)))
    else
      var refusal := Refusal(st, t, conversation, cmd, proposed);
      if refusal.Some? then (st, Failure(refusal.value))
      else
        TargetsKnown(st, conversation, cmd, proposed, now);
        UpdatesSplit(cmd.updates, Targets(cmd, proposed), cmd.tasks);
        var b := WithNewChain(st, conversation, cmd, proposed, now);
        AttachAllShape(b, Targets(cmd, proposed), t, cmd.updates, now);
        (Finish(AttachAll(b, Targets(cmd, proposed), t, cmd.updates, now), t, cmd),
         Success(Elements(Targets(cmd, proposed))))
  }

  lemma {:induction false} AttachAllShape(st: Store, targets: seq<ChainId>, t: TurnId, updates: seq<ChainUpdate>, now: int)
    requires Splittable(updates) && forall i :: 0 <= i < |targets| ==> targets[i] in st.chains
    ensures var b := AttachAll(st, targets, t, updates, now);
            b.turns == st.turns && b.selections == st.selections && b.chains.Keys == st.chains.Keys && st.nodes <= b.nodes
    decreases |targets|
  {
    if targets != [] {
      AttachAllShape(Attach(st, targets[0], t, updates, now), targets[1..], t, updates, now);
    }
  }

  // ---------- The invariant ----------

  /** Per chain, the sequence numbers are 0, 1, ..., n - 1, and every turn has at most one node. */
  ghost predicate NodesOk(nodes: set<Node>) {
    && (forall x, s: nat :: x in nodes && s < x.sequence ==> HasNode(nodes, x.chain, s))
    && (forall x, y :: x in nodes && y in nodes && x.chain == y.chain && x.sequence == y.sequence ==> x == y)
    && (forall x, y :: x in nodes && y in nodes && x.chain == y.chain && x.turn == y.turn ==> x == y)
  }

  function LogTurns(log: seq<F.ResourceEvent>): set<TurnId> {
    set e | e in log :: e.turn
  }

  /** The facts are the replay of the log, whose turns are on the chain and are counted by the version. */
  ghost predicate ChainOk(nodes: set<Node>, c: ChainId, chain: Chain) {
    && F.Consistent(chain.rows, chain.log) && chain.version == |LogTurns(chain.log)|
    && forall t :: t in LogTurns(chain.log) ==> OnChain(nodes, t, c)
  }

  ghost predicate FactsOk(st: Store) {
    forall c :: c in st.chains ==> ChainOk(st.nodes, c, st.chains[c])
  }

  ghost predicate IsCompleted(st: Store, t: TurnId) {
    t in st.turns && st.turns[t].status == Completed
  }

  ghost predicate HasLink(st: Store, t: TurnId) {
    exists x :: x in st.nodes && x.turn == t
  }

  ghost predicate StoreOk(st: Store) {
    && NodesOk(st.nodes) && FactsOk(st)
    && (forall x :: x in st.nodes ==> x.chain in st.chains && x.turn in st.turns)
    && (forall t {:trigger HasLink(st, t)} :: IsCompleted(st, t) ==> HasLink(st, t))
  }

  // ---------- Attaching a turn to a chain ----------

  lemma {:induction false} NextBound(nodes: set<Node>, some: set<Node>, c: ChainId) returns (n: nat)
    requires some <= nodes
    ensures forall x :: x in some && x.chain == c ==> x.sequence < n
    ensures n > 0 ==> HasNode(nodes, c, n - 1)
    decreases some
  {
    if x :| x in some && x.chain == c {
      n := NextBound(nodes, some - {x}, c);
      if n <= x.sequence {
        n := x.sequence + 1;
        assert HasNode(nodes, c, n - 1) by { assert x in nodes && x.chain == c && x.sequence == n - 1; }
      }
    } else {
      n := 0;
    }
  }

  lemma NextIs(nodes: set<Node>, c: ChainId)
    ensures IsNext(nodes, c, NextSequence(nodes, c))
  {
    var n := NextBound(nodes, nodes, c);
    assert IsNext(nodes, c, n);
  }

  lemma NodeFits(nodes: set<Node>, x: Node)
    requires NodesOk(nodes) && IsNext(nodes, x.chain, x.sequence)
    requires forall y :: y in nodes && y.chain == x.chain ==> y.turn != x.turn
    ensures NodesOk(nodes + {x})
  {
    var b := nodes + {x};
    forall y, s: nat | y in b && s < y.sequence ensures HasNode(b, y.chain, s) {
      if y == x && s < x.sequence - 1 {
        var last :| last in nodes && last.chain == x.chain && last.sequence == x.sequence - 1;
        assert HasNode(nodes, last.chain, s);
      }
      assert HasNode(nodes, y.chain, s);
      var z :| z in nodes && z.chain == y.chain && z.sequence == s;
      assert z in b;
    }
  }

  lemma AttachKeeps(st: Store, c: ChainId, t: TurnId, updates: seq<ChainUpdate>, now: int)
    requires c in st.chains && Splittable(updates) && NodesOk(st.nodes) && FactsOk(st)
    requires forall x :: x in st.nodes && x.chain == c ==> x.turn != t
    ensures var b := Attach(st, c, t, updates, now);
            NodesOk(b.nodes) && FactsOk(b)
  {
    var u, b := UpdateFor(updates, c), Attach(st, c, t, updates, now);
    NextIs(st.nodes, c);
    var node := NodeOf(c, t, NextSequence(st.nodes, c), u);
    NodeFits(st.nodes, node);
    assert node in b.nodes && node.turn == t && node.chain == c;
    forall d | d in b.chains ensures ChainOk(b.nodes, d, b.chains[d]) {
      assert ChainOk(st.nodes, d, st.chains[d]);
      MoreNodes(st.nodes, b.nodes, d, st.chains[d]);
      if d == c {
        UpdatedOk(st.nodes, b.nodes, c, st.chains[c], u, t, now);
      }
    }
  }

  lemma MoreNodes(a: set<Node>, b: set<Node>, c: ChainId, chain: Chain)
    requires a <= b && ChainOk(a, c, chain)
    ensures ChainOk(b, c, chain)
  {
    forall t | t in LogTurns(chain.log) ensures OnChain(b, t, c) {
      assert OnChain(a, t, c);
      var x :| x in a && x.turn == t && x.chain == c;
      assert x in b;
    }
  }

  /** A turn that is new to a chain is counted when it changes the chain's resources. */
  lemma UpdatedOk(a: set<Node>, b: set<Node>, c: ChainId, chain: Chain, u: Option<ChainUpdate>, t: TurnId, now: int)
    requires u.Some? ==> F.AllSplit(u.value.resources.removed)
    requires ChainOk(a, c, chain) && ChainOk(b, c, chain) && !OnChain(a, t, c) && OnChain(b, t, c)
    ensures ChainOk(b, c, Updated(chain, u, t, now))
  {
    if u.Some? {
      var r := u.value.resources;
      var events := F.UpdateEvents(chain.rows, r, t, now);
      F.UpdateConsistent(chain.rows, chain.log, r, t, now);
      F.UpdateShape(chain.rows, r, t, now);
      MoreTurns(chain.log, events, t);
      assert t !in LogTurns(chain.log);
    }
  }

  lemma MoreTurns(log: seq<F.ResourceEvent>, events: seq<F.ResourceEvent>, t: TurnId)
    requires forall i :: 0 <= i < |events| ==> events[i].turn == t
    ensures LogTurns(log + events) == LogTurns(log) + if events == [] then {} else {t}
  {
    if events != [] {
      assert events[0] in log + events;
    }
    forall e | e in log ensures e in log + events {
    }
    forall e | e in events ensures e.turn == t {
    }
  }

  /** The nodes of other turns are left alone, and turn t has got one node on every target. */
  ghost predicate AttachedTo(a: Store, b: Store, targets: seq<ChainId>, t: TurnId) {
    && NodesOk(b.nodes) && FactsOk(b)
    && b.chains.Keys == a.chains.Keys && b.turns == a.turns && b.selections == a.selections && a.nodes <= b.nodes
    && (forall x :: x in b.nodes && x !in a.nodes ==> x.turn == t && x.chain in targets)
    && (forall c :: c in targets ==> OnChain(b.nodes, t, c))
  }

  lemma {:induction false} AttachAllKeeps(st: Store, targets: seq<ChainId>, t: TurnId, updates: seq<ChainUpdate>, now: int)
    requires Splittable(updates) && (forall i :: 0 <= i < |targets| ==> targets[i] in st.chains) && Distinct(targets)
    requires NodesOk(st.nodes) && FactsOk(st)
    requires forall x :: x in st.nodes && x.turn == t ==> x.chain !in targets
    ensures AttachedTo(st, AttachAll(st, targets, t, updates, now), targets, t)
    decreases |targets|
  {
    if targets != [] {
      var c := targets[0];
      assert c in targets;
      AttachKeeps(st, c, t, updates, now);
      var mid := Attach(st, c, t, updates, now);
      OnlyNewNode(st, targets, t, updates, now);
      AttachAllKeeps(mid, targets[1..], t, updates, now);
      AttachedMore(st, mid, AttachAll(mid, targets[1..], t, updates, now), targets, t);
    }
  }

  lemma OnlyNewNode(st: Store, targets: seq<ChainId>, t: TurnId, updates: seq<ChainUpdate>, now: int)
    requires targets != [] && targets[0] in st.chains && Splittable(updates) && Distinct(targets)
    requires forall x :: x in st.nodes && x.turn == t ==> x.chain !in targets
    ensures var mid := Attach(st, targets[0], t, updates, now);
            && (forall x :: x in mid.nodes && x.turn == t ==> x.chain !in targets[1..])
            && (forall x :: x in mid.nodes && x !in st.nodes ==> x.turn == t && x.chain == targets[0])
            && OnChain(mid.nodes, t, targets[0])
  {
    var mid := Attach(st, targets[0], t, updates, now);
    var node := NodeOf(targets[0], t, NextSequence(st.nodes, targets[0]), UpdateFor(updates, targets[0]));
    assert node in mid.nodes && node.turn == t && node.chain == targets[0];
    assert targets[0] !in targets[1..];
    forall x | x in mid.nodes && x.turn == t ensures x.chain !in targets[1..] {
      assert x != node ==> x.chain !in targets;
    }
  }

  lemma AttachedMore(a: Store, mid: Store, b: Store, targets: seq<ChainId>, t: TurnId)
    requires targets != [] && AttachedTo(mid, b, targets[1..], t)
    requires mid.chains.Keys == a.chains.Keys && mid.turns == a.turns && mid.selections == a.selections
    requires a.nodes <= mid.nodes && OnChain(mid.nodes, t, targets[0])
    requires forall x :: x in mid.nodes && x !in a.nodes ==> x.turn == t && x.chain == targets[0]
    ensures AttachedTo(a, b, targets, t)
  {
    forall x | x in b.nodes && x !in a.nodes ensures x.turn == t && x.chain in targets {
      assert x !in mid.nodes ==> x.chain in targets[1..];
    }
    forall c | c in targets ensures OnChain(b.nodes, t, c) {
      if c == targets[0] {
        var x :| x in mid.nodes && x.turn == t && x.chain == c;
        assert x in b.nodes;
      } else {
        assert c in targets[1..];
      }
    }
  }

  // ---------- The transaction keeps the invariant ----------

  lemma TargetsDistinct(cmd: Command, proposed: ChainId)
    requires CreatesChain(cmd) ==> NewChainId(cmd, proposed) !in cmd.existing
    ensures Distinct(Targets(cmd, proposed)) && Targets(cmd, proposed) != []
  {
  }

  lemma NewChainOk(st: Store, conversation: ConversationId, cmd: Command, proposed: ChainId, now: int)
    requires FactsOk(st)
    ensures FactsOk(WithNewChain(st, conversation, cmd, proposed, now))
  {
    var b := WithNewChain(st, conversation, cmd, proposed, now);
    assert F.Consistent(map[], []) && LogTurns([]) == {};
    forall c | c in b.chains ensures ChainOk(b.nodes, c, b.chains[c]) {
      assert c in st.chains ==> ChainOk(st.nodes, c, st.chains[c]);
    }
  }

  lemma CompleteKeeps(st: Store, t: TurnId, conversation: ConversationId, cmd: Command, proposed: ChainId, now: int)
    requires StoreOk(st)
    ensures StoreOk(CompleteTurn(st, t, conversation, cmd, proposed, now).0)
  {
    if Commits(st, t, conversation, cmd, proposed) {
      CommitSteps(st, t, conversation, cmd, proposed, now);
      var b := CompleteTurn(st, t, conversation, cmd, proposed, now).0;
      forall u | IsCompleted(b, u) ensures HasLink(b, u) {
        if u != t {
          assert HasLink(st, u);
          var x :| x in st.nodes && x.turn == u;
          assert x in b.nodes;
        }
      }
    }
  }

  /** The turn is completed by this call. */
  ghost predicate Commits(st: Store, t: TurnId, conversation: ConversationId, cmd: Command, proposed: ChainId) {
    && t in st.turns && st.turns[t].conversation == conversation && st.turns[t].status != Completed
    && Refusal(st, t, conversation, cmd, proposed).None?
  }

  /** What a committing call does: it completes turn t and adds nodes of turn t, one on every target. */
  lemma CommitSteps(st: Store, t: TurnId, conversation: ConversationId, cmd: Command, proposed: ChainId, now: int)
    requires StoreOk(st) && Commits(st, t, conversation, cmd, proposed)
    ensures var b := CompleteTurn(st, t, conversation, cmd, proposed, now).0;
            && NodesOk(b.nodes) && FactsOk(b) && st.nodes <= b.nodes && st.chains.Keys <= b.chains.Keys
            && IsCompleted(b, t) && HasLink(b, t)
            && (forall u :: u != t ==> (u in b.turns <==> u in st.turns) && (u in st.turns ==> b.turns[u] == st.turns[u]))
            && (forall x :: x in b.nodes && x !in st.nodes ==> x.turn == t && x.chain in b.chains)
            && LinkedChains(b, t) == LinkedChains(st, t) + Elements(Targets(cmd, proposed))
            && LinkedChains(st, t) !! Elements(Targets(cmd, proposed)) && Targets(cmd, proposed) != []
  {
    var targets := Targets(cmd, proposed);
    NotLinked(st, t, targets);
    TargetsKnown(st, conversation, cmd, proposed, now);
    UpdatesSplit(cmd.updates, targets, cmd.tasks);
    TargetsDistinct(cmd, proposed);
    var a := WithNewChain(st, conversation, cmd, proposed, now);
    NewChainOk(st, conversation, cmd, proposed, now);
    AttachAllKeeps(a, targets, t, cmd.updates, now);
    FinishSteps(st, a, AttachAll(a, targets, t, cmd.updates, now), t, cmd, targets);
  }

  lemma FinishSteps(st: Store, a: Store, b: Store, t: TurnId, cmd: Command, targets: seq<ChainId>)
    requires AttachedTo(a, b, targets, t) && a.nodes == st.nodes && a.turns == st.turns && st.chains.Keys <= a.chains.Keys
    requires t in st.turns && targets != []
    requires forall i :: 0 <= i < |targets| ==> targets[i] in a.chains
    ensures var c := Finish(b, t, cmd);
            && NodesOk(c.nodes) && FactsOk(c) && st.nodes <= c.nodes && st.chains.Keys <= c.chains.Keys
            && IsCompleted(c, t) && HasLink(c, t)
            && (forall u :: u != t ==> (u in c.turns <==> u in st.turns) && (u in st.turns ==> c.turns[u] == st.turns[u]))
            && (forall x :: x in c.nodes && x !in st.nodes ==> x.turn == t && x.chain in c.chains)
            && LinkedChains(c, t) == LinkedChains(st, t) + Elements(targets)
  {
    LinksAre(a, Finish(b, t, cmd), targets, t);
    forall x | x in b.nodes && x !in st.nodes ensures x.chain in b.chains {
      var i :| 0 <= i < |targets| && targets[i] == x.chain;
    }
  }

  lemma NotLinked(st: Store, t: TurnId, targets: seq<ChainId>)
    requires !Linked(st.nodes, t, targets)
    ensures forall x :: x in st.nodes && x.turn == t ==> x.chain !in targets
    ensures LinkedChains(st, t) !! Elements(targets)
  {
    forall x | x in st.nodes && x.turn == t ensures x.chain !in targets {
      assert OnChain(st.nodes, t, x.chain);
    }
  }

  lemma LinksAre(a: Store, b: Store, targets: seq<ChainId>, t: TurnId)
    requires a.nodes <= b.nodes
    requires forall x :: x in b.nodes && x !in a.nodes ==> x.turn == t && x.chain in targets
    requires forall c :: c in targets ==> OnChain(b.nodes, t, c)
    ensures LinkedChains(b, t) == LinkedChains(a, t) + Elements(targets)
    ensures targets != [] ==> HasLink(b, t)
  {
    forall c ensures c in LinkedChains(b, t) <==> c in LinkedChains(a, t) || c in targets {
      if c in targets {
        assert OnChain(b.nodes, t, c);
        var x :| x in b.nodes && x.turn == t && x.chain == c;
      }
    }
    if targets != [] {
      assert OnChain(b.nodes, t, targets[0]);
      var x :| x in b.nodes && x.turn == t && x.chain == targets[0];
    }
  }

  // ---------- Runs ----------

  datatype Action =
    | Complete(turn: TurnId, conversation: ConversationId, cmd: Command, proposed: ChainId, now: int)
    | OpenTurn(turn: TurnId, conversation: ConversationId)
    | Select(turn: TurnId, conversation: ConversationId)
    | TurnBecomes(turn: TurnId, status: TurnStatus)
    | Archive(chain: ChainId)

  /** The planning module makes a turn processing or failed without looking at its state. */
  predicate Reopens(a: Action, t: TurnId) {
    a.TurnBecomes? && a.turn == t && a.status in {Processing, Failed}
  }

  /** No other part of the program completes a turn. */
  ghost function Exec(st: Store, a: Action): Store {
    match a
    case Complete(t, c, cmd, proposed, now) => CompleteTurn(st, t, c, cmd, proposed, now).0
    case OpenTurn(t, c) => if t in st.turns then st else st.(turns := st.turns[t := Turn(c, Routing, [])])
    case Select(t, c) => st.(selections := st.selections[t := c])
    case TurnBecomes(t, status) =>
      if t in st.turns && status != Completed && (Reopens(a, t) || st.turns[t].status != Completed)
      then st.(turns := st.turns[t := st.turns[t].(status := status)]) else st
    case Archive(c) => if c in st.chains then st.(chains := st.chains[c := st.chains[c].(archived := true)]) else st
  }

  ghost function Run(st: Store, actions: seq<Action>): Store
    decreases |actions|
  {
    if actions == [] then st else Run(Exec(st, actions[0]), actions[1..])
  }

  ghost predicate SameLinks(a: Store, b: Store, t: TurnId) {
    && IsCompleted(b, t) && t in a.turns && a.turns[t] == b.turns[t]
    && forall x: Node :: x.turn == t ==> (x in a.nodes <==> x in b.nodes)
  }

  lemma ExecKeeps(st: Store, a: Action)
    requires StoreOk(st)
    ensures StoreOk(Exec(st, a))
  {
    if a.Complete? {
      CompleteKeeps(st, a.turn, a.conversation, a.cmd, a.proposed, a.now);
    } else {
      OtherActionKeeps(st, a);
    }
  }

  lemma OtherActionKeeps(st: Store, a: Action)
    requires StoreOk(st) && !a.Complete?
    ensures StoreOk(Exec(st, a)) && Exec(st, a).nodes == st.nodes
  {
    var b := Exec(st, a);
    forall u | IsCompleted(b, u) ensures HasLink(b, u) {
      assert IsCompleted(st, u) && HasLink(st, u);
      var x :| x in st.nodes && x.turn == u;
      assert x in b.nodes;
    }
    forall c | c in b.chains ensures ChainOk(b.nodes, c, b.chains[c]) {
      assert ChainOk(st.nodes, c, st.chains[c]);
    }
  }

  /** A completed turn and its nodes stay as they are until the turn is reopened. */
  lemma ExecKeepsLinks(st: Store, a: Action, t: TurnId)
    requires StoreOk(st) && IsCompleted(st, t) && !Reopens(a, t)
    ensures SameLinks(st, Exec(st, a), t)
  {
    if a.Complete? && Commits(st, a.turn, a.conversation, a.cmd, a.proposed) {
      CommitSteps(st, a.turn, a.conversation, a.cmd, a.proposed, a.now);
    }
  }

  lemma {:induction false} RunKeeps(st: Store, actions: seq<Action>)
    requires StoreOk(st)
    ensures StoreOk(Run(st, actions))
    decreases |actions|
  {
    if actions != [] {
      ExecKeeps(st, actions[0]);
      RunKeeps(Exec(st, actions[0]), actions[1..]);
    }
  }

  // ---------- Redelivery ----------

  /** The answer that a repeated completion should get: nothing changes, the same chains are reported. */
  ghost predicate Repeats(st: Store, t: TurnId, links: set<ChainId>, conversation: ConversationId, cmd: Command,
                          proposed: ChainId, now: int) {
    CompleteTurn(st, t, conversation, cmd, proposed, now) == (st, Success(links))
  }

  /** The turn waits for another completion, or has had one. */
  ghost predicate Spoiled(st: Store, t: TurnId, links: set<ChainId>) {
    links <= LinkedChains(st, t) && (IsCompleted(st, t) ==> links != LinkedChains(st, t))
  }

  lemma SpoiledNeverRepeats(
    st: Store, t: TurnId, links: set<ChainId>, conversation: ConversationId, cmd: Command, proposed: ChainId, now: int)
    requires StoreOk(st) && Spoiled(st, t, links)
    ensures !Repeats(st, t, links, conversation, cmd, proposed, now)
  {
    if Commits(st, t, conversation, cmd, proposed) {
      CommitSteps(st, t, conversation, cmd, proposed, now);
    }
  }

  lemma SpoiledStays(st: Store, a: Action, t: TurnId, links: set<ChainId>)
    requires StoreOk(st) && Spoiled(st, t, links)
    ensures Spoiled(Exec(st, a), t, links)
  {
    if a.Complete? && Commits(st, a.turn, a.conversation, a.cmd, a.proposed) {
      CommitSteps(st, a.turn, a.conversation, a.cmd, a.proposed, a.now);
      if a.turn == t {
        MoreLinks(links, LinkedChains(st, t), Targets(a.cmd, a.proposed));
      } else {
        assert LinkedChains(Exec(st, a), t) == LinkedChains(st, t);
      }
    } else {
      assert Exec(st, a).nodes == st.nodes;
    }
  }

  lemma MoreLinks(links: set<ChainId>, linked: set<ChainId>, targets: seq<ChainId>)
    requires links <= linked && linked !! Elements(targets) && targets != []
    ensures links <= linked + Elements(targets) && links != linked + Elements(targets)
  {
    assert targets[0] in Elements(targets);
  }

  lemma {:induction false} SpoiledForGood(
    st: Store, actions: seq<Action>, t: TurnId, links: set<ChainId>, conversation: ConversationId, cmd: Command,
    proposed: ChainId, now: int)
    requires StoreOk(st) && Spoiled(st, t, links)
    ensures !Repeats(Run(st, actions), t, links, conversation, cmd, proposed, now)
    decreases |actions|
  {
    if actions == [] {
      SpoiledNeverRepeats(st, t, links, conversation, cmd, proposed, now);
    } else {
      ExecKeeps(st, actions[0]);
      SpoiledStays(st, actions[0], t, links);
      SpoiledForGood(Exec(st, actions[0]), actions[1..], t, links, conversation, cmd, proposed, now);
    }
  }

  ghost predicate Reopened(actions: seq<Action>, t: TurnId) {
    exists k :: 0 <= k < |actions| && Reopens(actions[k], t)
  }

  /**
    Idempotence over redeliveries, exactly: after any run, completing a completed turn again,
    with whatever command and proposed chain, changes nothing and reports the same chains if
    and only if the turn has not been reopened since its completion.
   */
  lemma {:induction false} RedeliveryRepeatsIffNotReopened(
    st: Store, actions: seq<Action>, t: TurnId, cmd: Command, proposed: ChainId, now: int)
    requires StoreOk(st) && IsCompleted(st, t)
    ensures Repeats(Run(st, actions), t, LinkedChains(st, t), st.turns[t].conversation, cmd, proposed, now) <==>
            !Reopened(actions, t)
    decreases |actions|
  {
    if actions == [] {
      assert HasLink(st, t);
      var x :| x in st.nodes && x.turn == t;
      assert x.chain in LinkedChains(st, t);
    } else {
      var next, rest := Exec(st, actions[0]), actions[1..];
      ExecKeeps(st, actions[0]);
      if Reopens(actions[0], t) {
        assert next.nodes == st.nodes && LinkedChains(next, t) == LinkedChains(st, t);
        SpoiledForGood(next, rest, t, LinkedChains(st, t), st.turns[t].conversation, cmd, proposed, now);
      } else {
        ExecKeepsLinks(st, actions[0], t);
        assert LinkedChains(next, t) == LinkedChains(st, t);
        RedeliveryRepeatsIffNotReopened(next, rest, t, cmd, proposed, now);
        ReopenedLater(actions, t);
      }
    }
  }

  lemma ReopenedLater(actions: seq<Action>, t: TurnId)
    requires actions != [] && !Reopens(actions[0], t)
    ensures Reopened(actions, t) <==> Reopened(actions[1..], t)
  {
    if Reopened(actions, t) {
      var k :| 0 <= k < |actions| && Reopens(actions[k], t);
      assert actions[1..][k - 1] == actions[k];
    }
    if Reopened(actions[1..], t) {
      var k :| 0 <= k < |actions[1..]| && Reopens(actions[1..][k], t);
      assert actions[k + 1] == actions[1..][k];
    }
  }

  /** Until a turn is reopened, all its nodes are those of the transaction that completed it. */
  lemma {:induction false} NodesOfOneTransaction(st: Store, actions: seq<Action>, t: TurnId)
    requires StoreOk(st) && IsCompleted(st, t) && !Reopened(actions, t)
    ensures SameLinks(st, Run(st, actions), t)
    decreases |actions|
  {
    if actions != [] {
      ExecKeeps(st, actions[0]);
      ExecKeepsLinks(st, actions[0], t);
      ReopenedLater(actions, t);
      NodesOfOneTransaction(Exec(st, actions[0]), actions[1..], t);
    }
  }

  /** A completion that only asks for a new chain. */
  function NewChainCommand(c: ChainId): Command {
    Command([], true, Some(c), [], [])
  }

  /** The failing run: a completed turn that is made processing again is completed once more, on a second new chain. */
  lemma ReopenedTurnIsCompletedTwice(st: Store, t: TurnId, c: ChainId, now: int)
    requires StoreOk(st) && IsCompleted(st, t) && c !in st.chains
    requires t in st.selections && st.selections[t] == st.turns[t].conversation
    ensures var again := Run(st, [TurnBecomes(t, Processing), Complete(t, st.turns[t].conversation, NewChainCommand(c), c, now)]);
            && IsCompleted(again, t) && c !in LinkedChains(st, t) && LinkedChains(again, t) == LinkedChains(st, t) + {c}
  {
    var cmd, conversation := NewChainCommand(c), st.turns[t].conversation;
    var open := Exec(st, TurnBecomes(t, Processing));
    ExecKeeps(st, TurnBecomes(t, Processing));
    assert Targets(cmd, c) == [c] && Elements([c]) == {c};
    assert !Linked(open.nodes, t, [c]);
    assert ChainsOf([]) == [];
    CommitSteps(open, t, conversation, cmd, c, now);
    var actions := [TurnBecomes(t, Processing), Complete(t, conversation, cmd, c, now)];
    assert actions[1..] == [actions[1]] && actions[1..][1..] == [];
    assert Run(st, actions) == Run(open, [actions[1]]) == Exec(open, actions[1]);
    assert LinkedChains(open, t) == LinkedChains(st, t);
  }

  /** A completed turn that is made failed refuses the redelivery instead of reporting its chains. */
  lemma FailedTurnRefusesRedelivery(st: Store, t: TurnId, cmd: Command, proposed: ChainId, now: int)
    requires IsCompleted(st, t)
    ensures var failed := Exec(st, TurnBecomes(t, Failed));
            CompleteTurn(failed, t, st.turns[t].conversation, cmd, proposed, now) == (failed, Failure(StateConflict))
  {
  }

  // ---------- Chains ----------

  const EMPTY_STORE: Store := Store(map[], map[], map[], {})

  /** In every run: per chain the sequence numbers are 0..n-1, and a turn has at most one node on a chain. */
  lemma SequencesAreContiguous(actions: seq<Action>, x: Node, y: Node, s: nat)
    requires var st := Run(EMPTY_STORE, actions); x in st.nodes && y in st.nodes && x.chain == y.chain
    ensures var st := Run(EMPTY_STORE, actions);
            && (s < x.sequence ==> HasNode(st.nodes, x.chain, s))
            && (x.sequence == y.sequence || x.turn == y.turn ==> x == y)
            && x.turn in st.turns
  {
    RunKeeps(EMPTY_STORE, actions);
  }

  /** In every run the facts of a chain are the replay of its log, and its version is the number of turns that changed them. */
  lemma ChainsMatchTheirLogs(actions: seq<Action>, c: ChainId)
    requires c in Run(EMPTY_STORE, actions).chains
    ensures var chain := Run(EMPTY_STORE, actions).chains[c];
            && F.Consistent(chain.rows, chain.log) && chain.version == |LogTurns(chain.log)|
            && forall t :: t in LogTurns(chain.log) ==> OnChain(Run(EMPTY_STORE, actions).nodes, t, c)
  {
    RunKeeps(EMPTY_STORE, actions);
    var st := Run(EMPTY_STORE, actions);
    assert ChainOk(st.nodes, c, st.chains[c]);
  }
}
