/**
  The command with which an aggregation completes the turn of its plan, and what becomes of
  the resources that the plan's executions reported.
 */
module AggregationCommand {
  import opened Common
  import F = ContextFacts
  import opened ContextTurns
  import opened TurnOutcomes

  // ---------- Resource references ----------

  /** `_resource`: the parts before and after the first colon, neither of them empty. */
  function ParseRef(ref: string): Option<F.Data> {
    var i := F.Colon(ref);
    if i == |ref| || i == 0 || i == |ref| - 1 then None
    else Some(F.Data(ref[..i], ref[i + 1..], Some("task_output"), Some("Task Runtime 产生的资源")))
  }

  function KeyOf(d: F.Data): F.Key {
    d.kind + ":" + d.id
  }

  /** A reference that parses is the key of the resource it is parsed to. */
  lemma ParsedKeyIsRef(ref: string)
    requires ParseRef(ref).Some?
    ensures KeyOf(ParseRef(ref).value) == ref
  {
    var i := F.Colon(ref);
    assert ref == ref[..i] + [ref[i]] + ref[i + 1..];
  }

  predicate AllParse(refs: seq<string>) {
    forall i :: 0 <= i < |refs| ==> ParseRef(refs[i]).Some?
  }

  function Resources(refs: seq<string>): (r: seq<F.Related>)
    requires AllParse(refs)
    ensures |r| == |refs|
  {
    seq(|refs|, i requires 0 <= i < |refs| => F.Related(KeyOf(ParseRef(refs[i]).value), ParseRef(refs[i]).value))
  }

  // ---------- The command ----------

  function UpdatesFor(targets: seq<ChainId>, tasks: seq<TaskId>, related: seq<F.Related>): (r: seq<ChainUpdate>)
    ensures |r| == |targets|
  {
    seq(|targets|, i requires 0 <= i < |targets| => ChainUpdate(targets[i], tasks, F.Update(related, [])))
  }

  /** The chains the turn was read with, or a new one when there is none. */
  function CommandFor(tasks: seq<TaskId>, chains: seq<ChainId>, refs: seq<string>, newChain: ChainId): Command
    requires AllParse(refs)
  {
    var existing := Dedup(chains);
    var targets := if existing == [] then [newChain] else existing;
    Command(existing, existing == [], if existing == [] then Some(newChain) else None, tasks,
            UpdatesFor(targets, tasks, Resources(refs)))
  }

  lemma {:induction false} DedupTwice<T(!new)>(s: seq<T>)
    requires Distinct(s)
    ensures Dedup(s) == s
  {
    if s != [] {
      var n := |s| - 1;
      DedupTwice(s[..n]);
      assert s == s[..n] + [s[n]];
    }
  }

  lemma TargetsOfCommand(tasks: seq<TaskId>, chains: seq<ChainId>, refs: seq<string>, newChain: ChainId, proposed: ChainId)
    requires AllParse(refs)
    ensures var l := Targets(CommandFor(tasks, chains, refs, newChain), proposed);
            && l == (if chains == [] then [newChain] else Dedup(chains))
            && Distinct(l) && CommandFor(tasks, chains, refs, newChain).updates == UpdatesFor(l, tasks, Resources(refs))
  {
    DedupTwice(Dedup(chains));
    assert chains != [] ==> chains[0] in Dedup(chains);
  }

  lemma ResourcesAreValid(refs: seq<string>)
    requires AllParse(refs) && Distinct(refs)
    ensures F.ValidUpdate(F.Update(Resources(refs), []))
  {
    var u := F.Update(Resources(refs), []);
    forall i | 0 <= i < |refs| ensures F.RelatedKeys(u.related)[i] == refs[i] {
      ParsedKeyIsRef(refs[i]);
    }
  }

  lemma UpdatesAreValid(targets: seq<ChainId>, tasks: seq<TaskId>, refs: seq<string>)
    requires AllParse(refs) && Distinct(refs) && Distinct(targets)
    ensures ValidUpdates(UpdatesFor(targets, tasks, Resources(refs)), targets, tasks)
  {
    ResourcesAreValid(refs);
    var updates := UpdatesFor(targets, tasks, Resources(refs));
    forall i | 0 <= i < |updates| ensures ValidChainUpdate(updates[i], targets, tasks) {
      assert updates[i].chain == targets[i];
    }
  }

  /**
    The completion is refused for no other reason than a chain that the turn was read with and
    that is gone, archived, or of another conversation, or a node of the turn on a target,
    which only a reopened turn can have.
   */
  lemma OnlyChainsAreRefused(
    st: Store, t: TurnId, conversation: ConversationId, tasks: seq<TaskId>, chains: seq<ChainId>, refs: seq<string>,
    newChain: ChainId, proposed: ChainId)
    requires t in st.turns && st.turns[t].status in {ContextReady, Processing}
    requires t in st.selections && st.selections[t] == conversation
    requires AllParse(refs) && Distinct(refs) && (chains == [] ==> newChain !in st.chains)
    ensures var cmd := CommandFor(tasks, chains, refs, newChain);
            var e := ChainError(st, conversation, Dedup(chains));
            Refusal(st, t, conversation, cmd, proposed) ==
            if e.Some? then e else if Linked(st.nodes, t, Targets(cmd, proposed)) then Some(NodeExists) else None
  {
    TargetsOfCommand(tasks, chains, refs, newChain, proposed);
    UpdatesAreValid(Targets(CommandFor(tasks, chains, refs, newChain), proposed), tasks, refs);
    DedupTwice(Dedup(chains));
    assert chains != [] ==> chains[0] in Dedup(chains);
  }

  // ---------- The reported resources become facts ----------

  lemma {:induction false} AttachOther(
    st: Store, targets: seq<ChainId>, t: TurnId, updates: seq<ChainUpdate>, now: int, c: ChainId)
    requires Splittable(updates) && (forall i :: 0 <= i < |targets| ==> targets[i] in st.chains)
    requires c in st.chains && c !in targets
    ensures var b := AttachAll(st, targets, t, updates, now);
            c in b.chains && b.chains[c] == st.chains[c]
    decreases |targets|
  {
    if targets != [] {
      AttachOther(Attach(st, targets[0], t, updates, now), targets[1..], t, updates, now, c);
    }
  }

  /** Every target chain gets its own update, once. */
  lemma {:induction false} AttachAt(
    st: Store, targets: seq<ChainId>, t: TurnId, updates: seq<ChainUpdate>, now: int, c: ChainId)
    requires Splittable(updates) && (forall i :: 0 <= i < |targets| ==> targets[i] in st.chains)
    requires Distinct(targets) && c in targets
    ensures var b := AttachAll(st, targets, t, updates, now);
            c in b.chains && b.chains[c] == Updated(st.chains[c], UpdateFor(updates, c), t, now)
    decreases |targets|
  {
    var next := Attach(st, targets[0], t, updates, now);
    if c == targets[0] {
      assert forall i :: 1 <= i < |targets| ==> targets[i] != targets[0];
      AttachOther(next, targets[1..], t, updates, now, c);
    } else {
      AttachAt(next, targets[1..], t, updates, now, c);
    }
  }

  /** An accepted completion gives every target chain its own update, and links it. */
  lemma CompletionAttaches(
    st: Store, t: TurnId, conversation: ConversationId, cmd: Command, proposed: ChainId, now: int, c: ChainId)
    requires t in st.turns && st.turns[t].conversation == conversation && st.turns[t].status != Completed
    requires Refusal(st, t, conversation, cmd, proposed).None? && Distinct(Targets(cmd, proposed))
    requires c in Targets(cmd, proposed)
    ensures Splittable(cmd.updates) && c in WithNewChain(st, conversation, cmd, proposed, now).chains
    ensures var (b, r) := CompleteTurn(st, t, conversation, cmd, proposed, now);
            && r == Success(Elements(Targets(cmd, proposed))) && t in b.turns && b.turns[t].status == Completed
            && c in b.chains
            && b.chains[c] ==
               Updated(WithNewChain(st, conversation, cmd, proposed, now).chains[c], UpdateFor(cmd.updates, c), t, now)
  {
    var targets := Targets(cmd, proposed);
    TargetsKnown(st, conversation, cmd, proposed, now);
    UpdatesSplit(cmd.updates, targets, cmd.tasks);
    var start := WithNewChain(st, conversation, cmd, proposed, now);
    AttachAllShape(start, targets, t, cmd.updates, now);
    AttachAt(start, targets, t, cmd.updates, now, c);
  }

  lemma {:induction false} UpdateForTarget(targets: seq<ChainId>, tasks: seq<TaskId>, related: seq<F.Related>, c: ChainId)
    requires c in targets
    ensures UpdateFor(UpdatesFor(targets, tasks, related), c) == Some(ChainUpdate(c, tasks, F.Update(related, [])))
  {
    if targets[0] != c {
      assert UpdatesFor(targets, tasks, related)[1..] == UpdatesFor(targets[1..], tasks, related);
      UpdateForTarget(targets[1..], tasks, related, c);
    }
  }

  /** A resource is in use on a chain, and this turn was the last to use it. */
  ghost predicate UsedBy(st: Store, c: ChainId, ref: string, t: TurnId, now: int) {
    && c in st.chains && ref in st.chains[c].rows
    && st.chains[c].rows[ref].active && st.chains[c].rows[ref].lastTurn == t && st.chains[c].rows[ref].lastSeen == now
  }

  /** After an accepted completion, every reported resource is in use on every target chain. */
  lemma ReportedResourcesAreUsed(
    st: Store, t: TurnId, conversation: ConversationId, tasks: seq<TaskId>, chains: seq<ChainId>, refs: seq<string>,
    newChain: ChainId, proposed: ChainId, now: int, c: ChainId, k: nat)
    requires t in st.turns && st.turns[t].conversation == conversation && st.turns[t].status in {ContextReady, Processing}
    requires t in st.selections && st.selections[t] == conversation
    requires AllParse(refs) && Distinct(refs) && (chains == [] ==> newChain !in st.chains)
    requires ChainError(st, conversation, Dedup(chains)).None? && forall x :: x in st.nodes ==> x.turn != t
    requires c in (if chains == [] then [newChain] else chains) && k < |refs|
    ensures var (b, r) := CompleteTurn(st, t, conversation, CommandFor(tasks, chains, refs, newChain), proposed, now);
            r.Success? && c in r.value && UsedBy(b, c, refs[k], t, now)
  {
    var cmd := CommandFor(tasks, chains, refs, newChain);
    OnlyChainsAreRefused(st, t, conversation, tasks, chains, refs, newChain, proposed);
    TargetsOfCommand(tasks, chains, refs, newChain, proposed);
    CompletionAttaches(st, t, conversation, cmd, proposed, now, c);
    UpdateForTarget(Targets(cmd, proposed), tasks, Resources(refs), c);
    ResourcesAreValid(refs);
    UsedRow(WithNewChain(st, conversation, cmd, proposed, now).chains[c], refs, t, now, k);
  }

  lemma UsedRow(chain: Chain, refs: seq<string>, t: TurnId, now: int, k: nat)
    requires AllParse(refs) && F.ValidUpdate(F.Update(Resources(refs), [])) && k < |refs|
    ensures var u := F.Update(Resources(refs), []);
            var rows := F.StepAll(chain.rows, F.UpdateEvents(chain.rows, u, t, now));
            refs[k] in rows && rows[refs[k]].active && rows[refs[k]].lastTurn == t && rows[refs[k]].lastSeen == now
  {
    F.RelatedRow(chain.rows, F.Update(Resources(refs), []), t, now, k);
    ParsedKeyIsRef(refs[k]);
  }

  // ---------- The tasks and references become nodes ----------

  lemma RelatedAreRefs(refs: seq<string>)
    requires AllParse(refs)
    ensures F.RelatedKeys(Resources(refs)) + [] == refs
  {
    forall i | 0 <= i < |refs| ensures F.RelatedKeys(Resources(refs))[i] == refs[i] {
      ParsedKeyIsRef(refs[i]);
    }
  }

  /**
    After an accepted completion, the turn holds the tasks of the plan, and every new node is one
    of this turn on a chain it was read with, or on the new chain, and holds the plan's tasks and
    all reported references.
   */
  lemma ResultsAreRecorded(
    st: Store, t: TurnId, conversation: ConversationId, tasks: seq<TaskId>, chains: seq<ChainId>, refs: seq<string>,
    newChain: ChainId, proposed: ChainId, now: int, x: Node)
    requires StoreOk(st) && AllParse(refs)
    requires MayComplete(st, t, conversation, CommandFor(tasks, chains, refs, newChain), proposed)
    requires x in CompleteTurn(st, t, conversation, CommandFor(tasks, chains, refs, newChain), proposed, now).0.nodes
    requires x !in st.nodes
    ensures var b := CompleteTurn(st, t, conversation, CommandFor(tasks, chains, refs, newChain), proposed, now).0;
            && t in b.turns && IsFirstOccurrences(b.turns[t].tasks, tasks)
            && x.turn == t && (if chains == [] then x.chain == newChain else x.chain in chains)
            && IsFirstOccurrences(x.tasks, tasks) && IsFirstOccurrences(x.refs, refs)
  {
    var cmd := CommandFor(tasks, chains, refs, newChain);
    CompletionOutcome(st, t, conversation, cmd, proposed, now);
    TargetsOfCommand(tasks, chains, refs, newChain, proposed);
    TargetsAre(cmd, proposed, x.chain);
    RelatedAreRefs(refs);
    HeldResults(x, Targets(cmd, proposed), tasks, Resources(refs));
  }

  lemma HeldResults(x: Node, targets: seq<ChainId>, tasks: seq<TaskId>, related: seq<F.Related>)
    requires x.chain in targets && HoldsUpdate(x, UpdatesFor(targets, tasks, related))
    ensures IsFirstOccurrences(x.tasks, tasks) && IsFirstOccurrences(x.refs, F.RelatedKeys(related) + [])
  {
    var k :| 0 <= k < |targets| && targets[k] == x.chain;
    HeldUpdate(x, UpdatesFor(targets, tasks, related), k, tasks, F.Update(related, []));
  }

  lemma HeldUpdate(x: Node, updates: seq<ChainUpdate>, k: nat, tasks: seq<TaskId>, resources: F.Update)
    requires HoldsUpdate(x, updates) && k < |updates| && updates[k].chain == x.chain
    requires forall i :: 0 <= i < |updates| ==> updates[i].tasks == tasks && updates[i].resources == resources
    ensures IsFirstOccurrences(x.tasks, tasks)
    ensures IsFirstOccurrences(x.refs, F.RelatedKeys(resources.related) + resources.removed)
  {
  }
}
