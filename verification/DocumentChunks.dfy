/**
  Ownership of a document while its blocks are built. Claims, late completions and
  compensations interleave with the other stages of the pipeline in any order.
 */
module DocumentChunks {
  import opened Common
  import opened ChunkBuild

  type OperationId = int

  datatype DocumentStatus = Uploaded | Processing | Processed | Chunking | Chunked | Indexing | Indexed | Failed
  datatype Lifecycle = Scheduled | Active | Expired | Replaced | Deleted
  datatype Storage = Stored | Archiving | Archived | ArchiveFailed

  /** cleaned: there is an active cleaned artifact, or the older `cleaned_uri`. */
  datatype Document = Document(
    status: DocumentStatus, owner: Option<OperationId>, lifecycle: Lifecycle, storage: Storage, cleaned: bool)

  datatype Blocks = Blocks(parents: seq<ParentRow>, children: seq<ChildRow>)

  /** What the transactions did. The source keeps no such list. */
  datatype Entry = Claimed(op: OperationId) | Completed(op: OperationId, build: Build, first: int) | Compensated(op: OperationId)

  datatype State = State(document: Option<Document>, blocks: Blocks, nextId: int, history: seq<Entry>)

  datatype ClaimError = NotFound | Busy | WrongStatus | Inactive | NotStored | HasChildren | NotProcessed
  datatype CompletionError = Missing | StatusChanged | TakenOver | BecameInactive | BeingArchived

  datatype Step =
    | Claim(op: OperationId) | Complete(op: OperationId, build: Build) | Compensate(op: OperationId)
    | StartProcessing(op: OperationId) | FinishProcessing(op: OperationId)
    | StartIndexing(op: OperationId) | FinishIndexing(op: OperationId)
    | FailStage(op: OperationId) | ReleaseStage(op: OperationId)
    | SetLifecycle(lifecycle: Lifecycle) | SetStorage(storage: Storage)

  // ---------- The transactions ----------

  predicate Usable(d: Document) {
    (d.lifecycle == Scheduled || d.lifecycle == Active) && d.storage == Stored
  }

  /** The first check of `_claim_chunking` that fails. */
  function ClaimRefusal(document: Option<Document>, children: seq<ChildRow>): Option<ClaimError> {
    if document.None? then Some(NotFound)
    else
      var d := document.value;
      if d.owner.Some? then Some(Busy)
      else if d.status != Processed && d.status != Failed then Some(WrongStatus)
      else if d.lifecycle != Scheduled && d.lifecycle != Active then Some(Inactive)
      else if d.storage != Stored then Some(NotStored)
      else if d.status == Failed && children != [] then Some(HasChildren)
      else if !d.cleaned then Some(NotProcessed)
      else None
  }

  /** The first check of `_complete_chunking` that fails. */
  function CompletionRefusal(document: Option<Document>, op: OperationId): Option<CompletionError> {
    if document.None? then Some(Missing)
    else
      var d := document.value;
      if d.status != Chunking then Some(StatusChanged)
      else if d.owner != Some(op) then Some(TakenOver)
      else if d.lifecycle != Scheduled && d.lifecycle != Active then Some(BecameInactive)
      else if d.storage != Stored then Some(BeingArchived)
      else None
  }

  /** The operation owns the document for chunking. */
  predicate Owns(document: Option<Document>, op: OperationId) {
    document.Some? && document.value.status == Chunking && document.value.owner == Some(op)
  }

  function BlocksOf(build: Build, first: int): Blocks {
    Blocks(ParentRows(build.parents, first), ChildRows(build, first, |build.parents|))
  }

  function SetStatus(s: State, status: DocumentStatus, owner: Option<OperationId>): State
    requires s.document.Some?
  {
    s.(document := Some(s.document.value.(status := status, owner := owner)))
  }

  function Next(s: State, step: Step): State {
    if s.document.None? then s
    else
      var d := s.document.value;
      match step
      case Claim(op) =>
        if ClaimRefusal(s.document, s.blocks.children).Some? then s
        else SetStatus(s, Chunking, Some(op)).(history := s.history + [Claimed(op)])
      case Complete(op, build) =>
        if !ValidBuild(build) || CompletionRefusal(s.document, op).Some? then s
        else
          SetStatus(s, Chunked, None).(
            blocks := BlocksOf(build, s.nextId), nextId := s.nextId + |build.parents|,
            history := s.history + [Completed(op, build, s.nextId)])
      case Compensate(op) =>
        if !Owns(s.document, op) then s
        else SetStatus(s, Failed, None).(history := s.history + [Compensated(op)])
      case StartProcessing(op) =>
        if d.owner.Some? || (d.status != Uploaded && d.status != Failed) || !Usable(d) then s
        else SetStatus(s, Processing, Some(op))
      case FinishProcessing(op) =>
        if d.status != Processing || d.owner != Some(op) || !Usable(d) then s
        else s.(document := Some(d.(status := Processed, owner := None, cleaned := true)))
      case StartIndexing(op) =>
        if d.owner.Some? || (d.status != Chunked && d.status != Failed) || !Usable(d) || s.blocks.children == [] then s
        else SetStatus(s, Indexing, Some(op))
      case FinishIndexing(op) =>
        if d.status != Indexing || d.owner != Some(op) || !Usable(d) then s else SetStatus(s, Indexed, None)
      case FailStage(op) =>
        if (d.status != Processing && d.status != Indexing) || d.owner != Some(op) then s else SetStatus(s, Failed, d.owner)
      case ReleaseStage(op) =>
        if d.status != Failed || d.owner != Some(op) then s else SetStatus(s, Failed, None)
      case SetLifecycle(l) => s.(document := Some(d.(lifecycle := l)))
      case SetStorage(t) => s.(document := Some(d.(storage := t)))
  }

  function Run(s: State, steps: seq<Step>): State {
    if steps == [] then s else Next(Run(s, steps[..|steps| - 1]), steps[|steps| - 1])
  }

  /** A document that has just been uploaded. */
  predicate Fresh(s: State) {
    && s.document.Some? && s.document.value.status == Uploaded && s.document.value.owner == None
    && s.blocks == Blocks([], []) && s.history == []
  }

  // ---------- Every claim is accounted for ----------

  function Claims(h: seq<Entry>, op: OperationId): nat {
    if h == [] then 0
    else
      var front, last := Claims(h[..|h| - 1], op), h[|h| - 1];
      if last == Claimed(op) then front + 1 else front
  }

  function Completions(h: seq<Entry>, op: OperationId): nat {
    if h == [] then 0
    else
      var front, last := Completions(h[..|h| - 1], op), h[|h| - 1];
      if last.Completed? && last.op == op then front + 1 else front
  }

  function Compensations(h: seq<Entry>, op: OperationId): nat {
    if h == [] then 0
    else
      var front, last := Compensations(h[..|h| - 1], op), h[|h| - 1];
      if last == Compensated(op) then front + 1 else front
  }

  lemma CountsNext(h: seq<Entry>, e: Entry, op: OperationId)
    ensures Claims(h + [e], op) == Claims(h, op) + if e == Claimed(op) then 1 else 0
    ensures Completions(h + [e], op) == Completions(h, op) + if e.Completed? && e.op == op then 1 else 0
    ensures Compensations(h + [e], op) == Compensations(h, op) + if e == Compensated(op) then 1 else 0
  {
    assert (h + [e])[..|h + [e]| - 1] == h;
  }

  /** The claims of an operation: completed, compensated, or still owning the document. */
  predicate Ledger(s: State, op: OperationId) {
    Claims(s.history, op) ==
    Completions(s.history, op) + Compensations(s.history, op) + if Owns(s.document, op) then 1 else 0
  }

  lemma ClaimKeepsLedger(s: State, other: OperationId, op: OperationId)
    requires Ledger(s, op)
    ensures Ledger(Next(s, Claim(other)), op)
  {
    CountsNext(s.history, Claimed(other), op);
  }

  lemma CompleteKeepsLedger(s: State, other: OperationId, build: Build, op: OperationId)
    requires Ledger(s, op)
    ensures Ledger(Next(s, Complete(other, build)), op)
  {
    CountsNext(s.history, Completed(other, build, s.nextId), op);
  }

  lemma CompensateKeepsLedger(s: State, other: OperationId, op: OperationId)
    requires Ledger(s, op)
    ensures Ledger(Next(s, Compensate(other)), op)
  {
    CountsNext(s.history, Compensated(other), op);
  }

  /** The other stages neither give nor take ownership for chunking. */
  lemma OtherStagesKeepOwner(s: State, step: Step, op: OperationId)
    requires !step.Claim? && !step.Complete? && !step.Compensate?
    ensures Next(s, step).history == s.history && (Owns(Next(s, step).document, op) <==> Owns(s.document, op))
    ensures Next(s, step).blocks == s.blocks
  {
  }

  lemma LedgerKept(s: State, step: Step, op: OperationId)
    requires Ledger(s, op)
    ensures Ledger(Next(s, step), op)
  {
    if step.Claim? {
      ClaimKeepsLedger(s, step.op, op);
    } else if step.Complete? {
      CompleteKeepsLedger(s, step.op, step.build, op);
    } else if step.Compensate? {
      CompensateKeepsLedger(s, step.op, op);
    } else {
      OtherStagesKeepOwner(s, step, op);
    }
  }

  /** Over every run, each claim leads to at most one completion. */
  lemma {:induction false} ClaimsAreSettledOnce(s: State, steps: seq<Step>, op: OperationId)
    requires Fresh(s)
    ensures Ledger(Run(s, steps), op)
    ensures Completions(Run(s, steps).history, op) + Compensations(Run(s, steps).history, op) <= Claims(Run(s, steps).history, op)
  {
    if steps != [] {
      var n := |steps| - 1;
      ClaimsAreSettledOnce(s, steps[..n], op);
      LedgerKept(Run(s, steps[..n]), steps[n], op);
    }
  }

  // ---------- Blocks come whole from one operation ----------

  /** The blocks of the last completion. */
  function LastBuilt(h: seq<Entry>): Blocks {
    if h == [] then Blocks([], [])
    else if h[|h| - 1].Completed? then BlocksOf(h[|h| - 1].build, h[|h| - 1].first)
    else LastBuilt(h[..|h| - 1])
  }

  ghost predicate BlocksOk(s: State) {
    && s.blocks == LastBuilt(s.history)
    && (forall k :: 0 <= k < |s.history| && s.history[k].Completed? ==> ValidBuild(s.history[k].build))
    && (s.document.Some? && s.document.value.status in {Chunked, Indexing, Indexed} ==> s.blocks.children != [])
  }

  lemma BlocksKept(s: State, step: Step)
    requires BlocksOk(s)
    ensures BlocksOk(Next(s, step))
  {
    var t := Next(s, step);
    if t.history != s.history {
      assert t.history[..|t.history| - 1] == s.history;
      if step.Complete? {
        StoredExactlyOnce(step.build, s.nextId);
      }
    }
  }

  /** Over every run, the stored blocks are those of one completion, and of the last one. */
  lemma {:induction false} BlocksComeWhole(s: State, steps: seq<Step>)
    requires Fresh(s)
    ensures BlocksOk(Run(s, steps))
  {
    if steps != [] {
      BlocksComeWhole(s, steps[..|steps| - 1]);
      BlocksKept(Run(s, steps[..|steps| - 1]), steps[|steps| - 1]);
    }
  }

  // ---------- Operations that do not own the document ----------

  predicate IsClaimOf(step: Step, op: OperationId) {
    step == Claim(op)
  }

  predicate SettlesFor(step: Step, op: OperationId) {
    (step.Complete? || step.Compensate?) && step.op == op
  }

  /** Until it claims again, an operation that does not own the document changes nothing by a late completion or compensation. */
  lemma {:induction false} LateWorkChangesNothing(s: State, steps: seq<Step>, op: OperationId, late: Step)
    requires !Owns(s.document, op) && SettlesFor(late, op)
    requires forall k :: 0 <= k < |steps| ==> !IsClaimOf(steps[k], op)
    ensures !Owns(Run(s, steps).document, op)
    ensures Next(Run(s, steps), late) == Run(s, steps)
  {
    if steps != [] {
      var n := |steps| - 1;
      assert forall k :: 0 <= k < n ==> steps[..n][k] == steps[k];
      LateWorkChangesNothing(s, steps[..n], op, late);
      assert !IsClaimOf(steps[n], op);
    }
  }

  /** Until the owner settles its claim, no step takes the document away from it or touches its blocks. */
  lemma {:induction false} OwnerIsUndisturbed(s: State, steps: seq<Step>, op: OperationId)
    requires Owns(s.document, op)
    requires forall k :: 0 <= k < |steps| ==> !SettlesFor(steps[k], op)
    ensures Owns(Run(s, steps).document, op)
    ensures Run(s, steps).blocks == s.blocks && Run(s, steps).history == s.history
  {
    if steps != [] {
      var n := |steps| - 1;
      assert forall k :: 0 <= k < n ==> steps[..n][k] == steps[k];
      OwnerIsUndisturbed(s, steps[..n], op);
      assert !SettlesFor(steps[n], op);
    }
  }

  /** What the owner's completion stores: its own build, whole, in place of everything older. */
  lemma CompletionStores(s: State, op: OperationId, build: Build)
    requires ValidBuild(build)
    ensures Next(s, Complete(op, build)) != s <==> Owns(s.document, op) && Usable(s.document.value)
    ensures Next(s, Complete(op, build)) != s ==>
              var t := Next(s, Complete(op, build));
              && |t.blocks.parents| == |build.parents| && |t.blocks.children| == ChildCount(build.groups) > 0
              && (forall k :: 0 <= k < |build.groups| ==> StoredUnder(build, s.nextId, build.groups[k], t.blocks.children))
              && (forall i :: 0 <= i < |build.parents| ==> t.blocks.parents[i] == ParentRow(s.nextId + i, build.parents[i]))
              && !Owns(t.document, op) && t.document.value.owner == None
  {
    StoredExactlyOnce(build, s.nextId);
  }

  // ---------- Failed documents ----------

  predicate FailedWithChildren(s: State) {
    s.document.Some? && s.document.value.status == Failed && s.blocks.children != []
  }

  /** A document whose children are stored and that no claim for chunking accepts. */
  predicate PastChunking(s: State) {
    s.document.Some? && s.document.value.status in {Failed, Chunked, Indexing, Indexed} && s.blocks.children != []
  }

  /** A step takes a document with stored children out of that state exactly when it starts to process a failed one anew. */
  lemma LeavesPastChunkingIff(s: State, step: Step)
    requires PastChunking(s)
    ensures !PastChunking(Next(s, step)) <==>
            step.StartProcessing? && s.document.value.status == Failed && s.document.value.owner == None
            && Usable(s.document.value)
    ensures Next(s, step).blocks == s.blocks
  {
  }

  /** Step i of the run is accepted: it changes the state. */
  predicate Accepted(s: State, steps: seq<Step>, i: int) {
    0 <= i < |steps| && Next(Run(s, steps[..i]), steps[i]) != Run(s, steps[..i])
  }

  predicate StartedAt(s: State, steps: seq<Step>, i: int, op: OperationId) {
    Accepted(s, steps, i) && steps[i] == StartProcessing(op)
  }

  predicate FinishedAt(s: State, steps: seq<Step>, i: int, op: OperationId) {
    Accepted(s, steps, i) && steps[i] == FinishProcessing(op)
  }

  predicate ClaimedAt(s: State, steps: seq<Step>, i: int) {
    Accepted(s, steps, i) && steps[i].Claim?
  }

  ghost predicate WasStarted(s: State, steps: seq<Step>, op: OperationId) {
    exists i :: StartedAt(s, steps, i, op)
  }

  ghost predicate WasFinished(s: State, steps: seq<Step>) {
    exists i, j, op :: i < j && StartedAt(s, steps, i, op) && FinishedAt(s, steps, j, op)
  }

  /** The document is processed anew and then claimed. */
  ghost predicate Reentered(s: State, steps: seq<Step>) {
    exists i, j, m, op :: i < j < m && StartedAt(s, steps, i, op) && FinishedAt(s, steps, j, op) && ClaimedAt(s, steps, m)
  }

  predicate IsChunking(s: State) {
    s.document.Some? && s.document.value.status == Chunking
  }

  ghost predicate EverChunking(s: State, steps: seq<Step>) {
    exists k :: ChunkingAfter(s, steps, k)
  }

  predicate ChunkingAfter(s: State, steps: seq<Step>, k: int) {
    0 <= k <= |steps| && IsChunking(Run(s, steps[..k]))
  }

  lemma AcceptedPrefix(s: State, steps: seq<Step>, i: int)
    requires steps != [] && Accepted(s, steps[..|steps| - 1], i)
    ensures Accepted(s, steps, i) && steps[i] == steps[..|steps| - 1][i]
  {
    assert steps[..|steps| - 1][..i] == steps[..i];
  }

  /** What was done in a prefix of the run was done in the run. */
  lemma LongerRun(s: State, steps: seq<Step>, op: OperationId)
    requires steps != []
    ensures WasStarted(s, steps[..|steps| - 1], op) ==> WasStarted(s, steps, op)
    ensures WasFinished(s, steps[..|steps| - 1]) ==> WasFinished(s, steps)
    ensures Reentered(s, steps[..|steps| - 1]) ==> Reentered(s, steps)
  {
    var front := steps[..|steps| - 1];
    forall i | Accepted(s, front, i) ensures Accepted(s, steps, i) && steps[i] == front[i] {
      AcceptedPrefix(s, steps, i);
    }
    if WasStarted(s, front, op) {
      var i :| StartedAt(s, front, i, op);
      assert StartedAt(s, steps, i, op);
    }
    if WasFinished(s, front) {
      var i, j, o :| i < j && StartedAt(s, front, i, o) && FinishedAt(s, front, j, o);
      assert StartedAt(s, steps, i, o) && FinishedAt(s, steps, j, o);
    }
    if Reentered(s, front) {
      var i, j, m, o :| i < j < m && StartedAt(s, front, i, o) && FinishedAt(s, front, j, o) && ClaimedAt(s, front, m);
      assert StartedAt(s, steps, i, o) && FinishedAt(s, steps, j, o) && ClaimedAt(s, steps, m);
    }
  }

  /** How far a document that was past chunking has come back. */
  ghost predicate Traced(s: State, steps: seq<Step>) {
    var t := Run(s, steps);
    && t.document.Some? && t.blocks.children != []
    && t.document.value.status != Uploaded
    && (t.document.value.status == Processing ==> t.document.value.owner.Some? && WasStarted(s, steps, t.document.value.owner.value))
    && (t.document.value.status == Processed ==> WasFinished(s, steps))
    && (t.document.value.status == Chunking ==> Reentered(s, steps))
  }

  /** What one step makes of the status. */
  lemma StatusAfter(s: State, step: Step)
    requires s.document.Some? && s.document.value.status != Uploaded && s.blocks.children != []
    ensures var t := Next(s, step);
            && t.document.Some? && t.blocks.children != [] && t.document.value.status != Uploaded
            && (t.document.value.status == Processing && t != s ==>
                  || (step.StartProcessing? && t.document.value.owner == Some(step.op))
                  || (s.document.value.status == Processing && t.document.value.owner == s.document.value.owner))
            && (t.document.value.status == Processed && s.document.value.status != Processed ==>
                  s.document.value.status == Processing && step.FinishProcessing? && s.document.value.owner == Some(step.op))
            && (t.document.value.status == Chunking && s.document.value.status != Chunking ==>
                  s.document.value.status == Processed && step.Claim?)
  {
    if step.Complete? && ValidBuild(step.build) {
      StoredExactlyOnce(step.build, s.nextId);
    }
  }

  lemma {:induction false} RunIsTraced(s: State, steps: seq<Step>)
    requires PastChunking(s)
    ensures Traced(s, steps)
  {
    if steps != [] {
      var n := |steps| - 1;
      var front, before := steps[..n], Run(s, steps[..n]);
      RunIsTraced(s, front);
      StatusAfter(before, steps[n]);
      TracedNext(s, steps);
    }
  }

  lemma TracedNext(s: State, steps: seq<Step>)
    requires steps != [] && Traced(s, steps[..|steps| - 1])
    ensures Traced(s, steps)
  {
    var n := |steps| - 1;
    var front := steps[..n];
    var before, after := Run(s, front), Run(s, steps);
    StatusAfter(before, steps[n]);
    if after.document.value.status == Processing {
      LongerRun(s, steps, after.document.value.owner.value);
      assert after != before && steps[n].StartProcessing? ==> StartedAt(s, steps, n, steps[n].op);
    } else if after.document.value.status == Processed {
      LongerRun(s, steps, 0);
      if before.document.value.status != Processed {
        var op := steps[n].op;
        var i :| StartedAt(s, front, i, op);
        AcceptedPrefix(s, steps, i);
        assert StartedAt(s, steps, i, op) && FinishedAt(s, steps, n, op) && i < n;
      }
    } else if after.document.value.status == Chunking {
      LongerRun(s, steps, 0);
      if before.document.value.status != Chunking {
        var i, j, op :| i < j && StartedAt(s, front, i, op) && FinishedAt(s, front, j, op);
        AcceptedPrefix(s, steps, i);
        AcceptedPrefix(s, steps, j);
        assert StartedAt(s, steps, i, op) && FinishedAt(s, steps, j, op) && ClaimedAt(s, steps, n) && j < n;
      }
    }
  }

  /**
    When a document with stored children is chunked again, exactly: over every run, it enters
    chunking if and only if an operation is accepted for processing, finishes it, and a later
    claim is accepted.
   */
  lemma ChunkedAgainIffReprocessed(s: State, steps: seq<Step>)
    requires PastChunking(s)
    ensures EverChunking(s, steps) <==> Reentered(s, steps)
  {
    if EverChunking(s, steps) {
      var k :| ChunkingAfter(s, steps, k);
      RunIsTraced(s, steps[..k]);
      ReenteredLater(s, steps, k);
    }
    if Reentered(s, steps) {
      var i, j, m, op :| i < j < m && StartedAt(s, steps, i, op) && FinishedAt(s, steps, j, op) && ClaimedAt(s, steps, m);
      ClaimedIsChunking(s, steps, m);
    }
  }

  lemma ClaimedIsChunking(s: State, steps: seq<Step>, m: nat)
    requires ClaimedAt(s, steps, m)
    ensures ChunkingAfter(s, steps, m + 1)
  {
    assert steps[..m + 1][..m] == steps[..m];
    assert Run(s, steps[..m + 1]) == Next(Run(s, steps[..m]), steps[m]);
  }

  lemma {:induction false} ReenteredLater(s: State, steps: seq<Step>, k: nat)
    requires k <= |steps| && Reentered(s, steps[..k])
    ensures Reentered(s, steps)
    decreases |steps|
  {
    if k < |steps| {
      var front := steps[..|steps| - 1];
      assert front[..k] == steps[..k];
      ReenteredLater(s, front, k);
      LongerRun(s, steps, 0);
    } else {
      assert steps[..k] == steps;
    }
  }

  /** Until it is processed anew, a document with stored children keeps them. */
  lemma {:induction false} BlocksStayWithoutReprocessing(s: State, steps: seq<Step>)
    requires PastChunking(s) && forall i, op :: !StartedAt(s, steps, i, op)
    ensures PastChunking(Run(s, steps)) && Run(s, steps).blocks == s.blocks
  {
    if steps != [] {
      var n := |steps| - 1;
      var front := steps[..n];
      forall i, op ensures !StartedAt(s, front, i, op) {
        if Accepted(s, front, i) {
          AcceptedPrefix(s, steps, i);
          assert !StartedAt(s, steps, i, op);
        }
      }
      BlocksStayWithoutReprocessing(s, front);
      LeavesPastChunkingIff(Run(s, front), steps[n]);
      assert steps[n].StartProcessing? ==> !StartedAt(s, steps, n, steps[n].op);
    }
  }

  /** The shortest way back: such a run exists from every failed document that a claim may touch again. */
  lemma ReprocessingLeadsBack(s: State, op: OperationId)
    requires FailedWithChildren(s) && s.document.value.owner == None && Usable(s.document.value)
    ensures Next(s, Claim(op)) == s
    ensures var t := Run(s, [StartProcessing(op), FinishProcessing(op), Claim(op)]);
            Owns(t.document, op) && t.blocks == s.blocks
  {
    var steps := [StartProcessing(op), FinishProcessing(op), Claim(op)];
    assert steps[..2] == [StartProcessing(op), FinishProcessing(op)];
    assert steps[..2][..1] == [StartProcessing(op)];
    assert [StartProcessing(op)][..0] == [];
    var a := Next(s, StartProcessing(op));
    assert Run(s, steps[..2][..1]) == a;
    var b := Next(a, FinishProcessing(op));
    assert Run(s, steps[..2]) == b;
    assert Run(s, steps) == Next(b, Claim(op));
  }

  /** A compensated document is chunked again on the next claim exactly when no children are stored. */
  lemma RetryAfterCompensation(s: State, op: OperationId, retry: OperationId)
    requires Owns(s.document, op) && Usable(s.document.value) && s.document.value.cleaned
    ensures Owns(Next(Next(s, Compensate(op)), Claim(retry)).document, retry) <==> s.blocks.children == []
  {
    var t := Next(s, Compensate(op));
    assert ClaimRefusal(t.document, t.blocks.children) == if s.blocks.children == [] then None else Some(HasChildren);
  }

  // ---------- The row and its tables ----------

  class ChunkedDocument {
    var document: Option<Document>
    var parents: seq<ParentRow>
    var children: seq<ChildRow>
    var nextId: int
    ghost var history: seq<Entry>

    ghost function Contents(): State
      reads this
    {
      State(document, Blocks(parents, children), nextId, history)
    }

    /** `_claim_chunking`. */
    method ClaimChunking(op: OperationId) returns (r: Option<ClaimError>)
      modifies this
      ensures r == ClaimRefusal(old(document), old(children))
      ensures Contents() == Next(old(Contents()), Claim(op))
    {
      if document.None? {
        return Some(NotFound);
      }
      var d := document.value;
      if d.owner.Some? {
        return Some(Busy);
      }
      if d.status != Processed && d.status != Failed {
        return Some(WrongStatus);
      }
      if d.lifecycle != Scheduled && d.lifecycle != Active {
        return Some(Inactive);
      }
      if d.storage != Stored {
        return Some(NotStored);
      }
      if d.status == Failed && children != [] {
        return Some(HasChildren);
      }
      if !d.cleaned {
        return Some(NotProcessed);
      }
      document := Some(d.(status := Chunking, owner := Some(op)));
      history := history + [Claimed(op)];
      return None;
    }

    /** The phases after the chunker has answered: the checks on its result, then `_complete_chunking`. */
    method FinishChunking(op: OperationId, build: Build) returns (rejected: Option<BuildError>, r: Option<CompletionError>)
      modifies this
      ensures Outcome(build, rejected)
      ensures rejected == None ==> r == CompletionRefusal(old(document), op)
      ensures Contents() == Next(old(Contents()), Complete(op, build))
    {
      r := None;
      rejected := Validate(build);
      if rejected == None {
        r := CompleteChunking(op, build);
      }
    }

    /** `_complete_chunking`. */
    method CompleteChunking(op: OperationId, build: Build) returns (r: Option<CompletionError>)
      modifies this
      ensures r == CompletionRefusal(old(document), op)
      ensures r.Some? ==> Contents() == old(Contents())
      ensures r == None ==>
                && Owns(old(document), op) && Usable(old(document).value)
                && document == Some(old(document).value.(status := Chunked, owner := None))
                && Blocks(parents, children) == BlocksOf(build, old(nextId)) && nextId == old(nextId) + |build.parents|
                && history == old(history) + [Completed(op, build, old(nextId))]
    {
      if document.None? {
        return Some(Missing);
      }
      var d := document.value;
      if d.status != Chunking {
        return Some(StatusChanged);
      }
      if d.owner != Some(op) {
        return Some(TakenOver);
      }
      if d.lifecycle != Scheduled && d.lifecycle != Active {
        return Some(BecameInactive);
      }
      if d.storage != Stored {
        return Some(BeingArchived);
      }
      history := history + [Completed(op, build, nextId)];
      children, parents := [], [];
      parents, children := CreateBlocks(build, nextId);
      nextId := nextId + |build.parents|;
      document := Some(d.(status := Chunked, owner := None));
      return None;
    }

    /** `_fail_chunking`, the effect of the compensator. */
    method FailChunking(op: OperationId) returns (updated: bool)
      modifies this
      ensures updated <==> Owns(old(document), op)
      ensures Contents() == Next(old(Contents()), Compensate(op))
    {
      updated := document.Some? && document.value.status == Chunking && document.value.owner == Some(op);
      if updated {
        document := Some(document.value.(status := Failed, owner := None));
        history := history + [Compensated(op)];
      }
    }
  }

  // ---------- The rows before and after ----------

  /** A claim is accepted exactly for a free, cleaned document in use that has been processed, or has failed without children. */
  lemma ClaimOutcome(s: State, op: OperationId)
    requires s.document.Some?
    ensures var d, t := s.document.value, Next(s, Claim(op));
            if && d.owner.None? && d.cleaned && d.lifecycle in {Scheduled, Active} && d.storage == Stored
               && (d.status == Processed || (d.status == Failed && s.blocks.children == []))
            then t == s.(document := Some(d.(status := Chunking, owner := Some(op))), history := s.history + [Claimed(op)])
            else t == s
  {
  }

  /** A completion is accepted exactly for the owner of a document in use that is being chunked, with a valid build. */
  lemma CompletionOutcome(s: State, op: OperationId, build: Build)
    requires s.document.Some?
    ensures var d, t := s.document.value, Next(s, Complete(op, build));
            if && d.status == Chunking && d.owner == Some(op) && d.lifecycle in {Scheduled, Active} && d.storage == Stored
               && ValidBuild(build)
            then t.document == Some(d.(status := Chunked, owner := None)) && t.nextId == s.nextId + |build.parents|
            else t == s
  {
  }

  /** A compensation is accepted exactly for the owner of a document that is being chunked; the blocks stay. */
  lemma CompensationOutcome(s: State, op: OperationId)
    requires s.document.Some?
    ensures var d, t := s.document.value, Next(s, Compensate(op));
            if d.status == Chunking && d.owner == Some(op)
            then t == s.(document := Some(d.(status := Failed, owner := None)), history := s.history + [Compensated(op)])
            else t == s
  {
  }
}
