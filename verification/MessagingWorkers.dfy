/**
  The outbox publisher, the dispatcher's inbox bookkeeping and the stream worker as loops
  over batches: what is published, counted and acknowledged, one event at a time.
 */
module MessagingWorkers {
  import opened Common
  import opened WorkflowRows
  import opened WorkflowStore
  import opened ReplanTransactions
  import opened WorkflowSystem

  // ---------- Publishing a batch ----------

  predicate Due(db: Db, now: int, e: EventId) {
    e in db.outbox && db.outbox[e].status == EventPending && db.outbox[e].availableAt <= now
  }

  /** The events of a batch are marked one after the other, by the outcome of their publication. */
  function MarkAll(db: Db, batch: seq<EventId>, ok: seq<bool>): Db
    requires |ok| == |batch|
    decreases |batch|
  {
    if batch == [] then db else MarkAll(MarkEvent(db, batch[0], ok[0]), batch[1..], ok[1..])
  }

  /** The events that were published successfully, in order. */
  function Sent(batch: seq<EventId>, ok: seq<bool>): (s: seq<EventId>)
    requires |ok| == |batch|
    ensures forall e :: e in s ==> e in batch
  {
    if batch == [] then []
    else (if ok[0] then [batch[0]] else []) + Sent(batch[1..], ok[1..])
  }

  /** What one attempt to publish makes of an event. */
  function Marked(event: Event, sent: bool): Event {
    if sent then event.(status := Published)
    else event.(attempts := event.attempts + 1,
                status := if event.attempts + 1 >= MAX_PUBLISH_ATTEMPTS then DeadLetter else EventPending)
  }

  /**
    A batch without repetitions touches each of its pending events exactly once, and
    nothing else: published, or one more failed attempt, dead at the tenth.
   */
  lemma {:induction false} MarkAllEffect(db: Db, batch: seq<EventId>, ok: seq<bool>, now: int)
    requires |ok| == |batch| && Distinct(batch) && forall i :: 0 <= i < |batch| ==> Due(db, now, batch[i])
    ensures var b := MarkAll(db, batch, ok);
            && b == db.(outbox := b.outbox) && b.outbox.Keys == db.outbox.Keys
            && (forall i :: 0 <= i < |batch| ==>
                  batch[i] in b.outbox && b.outbox[batch[i]] == Marked(db.outbox[batch[i]], ok[i]))
            && (forall e :: e in db.outbox && e !in batch ==> b.outbox[e] == db.outbox[e])
    decreases |batch|
  {
    if batch != [] {
      var next := MarkEvent(db, batch[0], ok[0]);
      var rest := batch[1..];
      forall i | 0 <= i < |rest| ensures Due(next, now, rest[i]) {
        assert rest[i] == batch[i + 1] && Due(db, now, batch[i + 1]) && batch[i + 1] != batch[0];
      }
      MarkAllEffect(next, rest, ok[1..], now);
      MarkAllStep(db, batch, ok, now);
    }
  }

  lemma MarkAllStep(db: Db, batch: seq<EventId>, ok: seq<bool>, now: int)
    requires |ok| == |batch| > 0 && Distinct(batch) && forall i :: 0 <= i < |batch| ==> Due(db, now, batch[i])
    requires var next := MarkEvent(db, batch[0], ok[0]);
             var b := MarkAll(next, batch[1..], ok[1..]);
             && b == next.(outbox := b.outbox) && b.outbox.Keys == next.outbox.Keys
             && (forall i :: 0 <= i < |batch[1..]| ==>
                   batch[1..][i] in next.outbox
                   && b.outbox[batch[1..][i]] == Marked(next.outbox[batch[1..][i]], ok[1..][i]))
             && (forall e :: e in next.outbox && e !in batch[1..] ==> b.outbox[e] == next.outbox[e])
    ensures var b := MarkAll(db, batch, ok);
            && b == db.(outbox := b.outbox) && b.outbox.Keys == db.outbox.Keys
            && (forall i :: 0 <= i < |batch| ==>
                  batch[i] in b.outbox && b.outbox[batch[i]] == Marked(db.outbox[batch[i]], ok[i]))
            && (forall e :: e in db.outbox && e !in batch ==> b.outbox[e] == db.outbox[e])
  {
    var next := MarkEvent(db, batch[0], ok[0]);
    var b := MarkAll(next, batch[1..], ok[1..]);
    assert Due(db, now, batch[0]) && batch[0] !in batch[1..];
    forall i | 0 <= i < |batch| ensures batch[i] in b.outbox && b.outbox[batch[i]] == Marked(db.outbox[batch[i]], ok[i]) {
      assert Due(db, now, batch[i]);
      if i > 0 {
        assert batch[i] == batch[1..][i - 1] && batch[i] != batch[0];
      }
    }
    forall e | e in db.outbox && e !in batch ensures b.outbox[e] == db.outbox[e] {
      assert e !in batch[1..] && e != batch[0];
    }
  }

  class OutboxPublisher {
    var db: Db
    var stream: seq<EventId>

    constructor (db: Db, stream: seq<EventId>)
      ensures this.db == db && this.stream == stream
    {
      this.db, this.stream := db, stream;
    }

    /** `_load_batch`: due events in any order, as many as there are up to the limit. */
    method LoadBatch(limit: nat, now: int) returns (batch: seq<EventId>)
      ensures Distinct(batch) && |batch| <= limit && forall e :: e in batch ==> Due(db, now, e)
      ensures |batch| < limit ==> forall e :: Due(db, now, e) ==> e in batch
    {
      batch := [];
      var rest := set e | e in db.outbox && Due(db, now, e);
      while |rest| > 0 && |batch| < limit
        invariant Distinct(batch) && |batch| <= limit
        invariant forall e :: Due(db, now, e) <==> e in rest || e in batch
        invariant forall e :: e in batch ==> e !in rest
      {
        var e := Pick(rest);
        batch := batch + [e];
        rest := rest - {e};
      }
      assert |batch| < limit ==> rest == {};
    }

    /** `_mark_published` and `_mark_failed` */
    method Mark(e: EventId, sent: bool)
      modifies this`db
      ensures db == MarkEvent(old(db), e, sent)
    {
      if e !in db.outbox || db.outbox[e].status != EventPending {
        return;
      }
      var event := db.outbox[e];
      if sent {
        event := event.(status := Published);
      } else {
        event := event.(attempts := event.attempts + 1);
        if event.attempts >= MAX_PUBLISH_ATTEMPTS {
          event := event.(status := DeadLetter);
        }
      }
      db := db.(outbox := db.outbox[e := event]);
    }

    /** `publish_batch`; ok[i] says whether the transport accepted the i-th event. */
    method PublishBatch(batch: seq<EventId>, ok: seq<bool>) returns (published: nat)
      requires |ok| == |batch|
      modifies this
      ensures db == MarkAll(old(db), batch, ok)
      ensures stream == old(stream) + Sent(batch, ok)
      ensures published == |Sent(batch, ok)|
    {
      published := 0;
      var i := 0;
      while i < |batch|
        invariant 0 <= i <= |batch|
        invariant MarkAll(db, batch[i..], ok[i..]) == MarkAll(old(db), batch, ok)
        invariant stream + Sent(batch[i..], ok[i..]) == old(stream) + Sent(batch, ok)
        invariant published + |Sent(batch[i..], ok[i..])| == |Sent(batch, ok)|
      {
        assert batch[i..][1..] == batch[i + 1..] && ok[i..][1..] == ok[i + 1..];
        if ok[i] {
          stream := stream + [batch[i]];
          Mark(batch[i], true);
          published := published + 1;
        } else {
          Mark(batch[i], false);
        }
        i := i + 1;
      }
    }
  }

  // ---------- The inbox ----------

  class Inbox {
    var db: Db

    constructor (db: Db)
      ensures this.db == db
    {
      this.db := db;
    }

    /** `record_inbox_once` */
    method RecordOnce(c: Consumer, e: EventId) returns (first: bool)
      modifies this`db
      ensures first <==> (c, e) !in old(db).inbox
      ensures db == RecordInbox(old(db), c, e)
    {
      if (c, e) in db.inbox {
        assert db.inbox + {(c, e)} == db.inbox;
        return false;
      }
      db := db.(inbox := db.inbox + {(c, e)});
      return true;
    }

    /** `_record_processed` of the dispatcher */
    method RecordProcessedEvent(e: EventId)
      modifies this`db
      ensures db == RecordProcessed(old(db), e)
    {
      if (RuntimeDispatcher, e) in db.inbox {
        return;
      }
      db := db.(inbox := db.inbox + {(RuntimeDispatcher, e)});
    }

    /** `_resolve_clarification` */
    method Resolve(p: PlanId)
      modifies this`db
      ensures db == ResolveClarification(old(db), p)
    {
      if p !in db.plans || db.plans[p].parent.None? || db.plans[p].parent.value !in db.plans {
        return;
      }
      var parent := db.plans[p].parent.value;
      var t := db.plans[parent].turn;
      if t !in db.clarifications || db.clarifications[t].plan != parent || db.clarifications[t].status != Answered {
        return;
      }
      db := db.(clarifications := db.clarifications[t := db.clarifications[t].(status := Resolved)]);
    }
  }

  // ---------- The stream worker ----------

  /** The messages before the first one whose handling fails. */
  function HandledPrefix(messages: seq<EntryId>, ok: EntryId -> bool): (n: nat)
    ensures n <= |messages|
    ensures forall k :: 0 <= k < n ==> ok(messages[k])
    ensures n < |messages| ==> !ok(messages[n])
  {
    if messages == [] || !ok(messages[0]) then 0 else 1 + HandledPrefix(messages[1..], ok)
  }

  class StreamWorker {
    var acked: set<EntryId>

    constructor ()
      ensures acked == {}
    {
      acked := {};
    }

    /** `_dispatch_messages`: an entry is acknowledged only after it has been handled; a failure stops the loop. */
    method DispatchMessages(messages: seq<EntryId>, ok: EntryId -> bool) returns (handled: nat, raised: bool)
      modifies this
      ensures handled == HandledPrefix(messages, ok) && (raised <==> handled < |messages|)
      ensures acked == old(acked) + Elements(messages[..handled])
    {
      handled := 0;
      while handled < |messages|
        invariant handled <= |messages|
        invariant forall k :: 0 <= k < handled ==> ok(messages[k])
        invariant acked == old(acked) + Elements(messages[..handled])
      {
        if !ok(messages[handled]) {
          PrefixIs(messages, ok, handled);
          return handled, true;
        }
        assert messages[..handled + 1] == messages[..handled] + [messages[handled]];
        acked := acked + {messages[handled]};
        handled := handled + 1;
      }
      PrefixIs(messages, ok, handled);
      return handled, false;
    }

    /** `run_once`: abandoned entries first, then the consumer's own backlog, then new ones. */
    method RunOnce(abandoned: seq<EntryId>, backlog: seq<EntryId>, arrived: seq<EntryId>, ok: EntryId -> bool)
      returns (handled: nat, raised: bool)
      modifies this
      ensures old(acked) <= acked
      ensures forall n :: n in acked && n !in old(acked) ==> ok(n) && n in abandoned + backlog + arrived
      ensures abandoned != [] ==> acked == old(acked) + Elements(abandoned[..HandledPrefix(abandoned, ok)])
      ensures abandoned == [] && backlog != [] ==>
                acked == old(acked) + Elements(backlog[..HandledPrefix(backlog, ok)])
      ensures abandoned == [] && backlog == [] ==>
                acked == old(acked) + Elements(arrived[..HandledPrefix(arrived, ok)])
    {
      handled, raised := DispatchMessages(abandoned, ok);
      if raised || handled > 0 {
        return;
      }
      handled, raised := DispatchMessages(backlog, ok);
      if raised || handled > 0 {
        return;
      }
      handled, raised := DispatchMessages(arrived, ok);
    }
  }

  lemma {:induction false} PrefixIs(messages: seq<EntryId>, ok: EntryId -> bool, n: nat)
    requires n <= |messages| && (forall k :: 0 <= k < n ==> ok(messages[k]))
    requires n < |messages| ==> !ok(messages[n])
    ensures HandledPrefix(messages, ok) == n
    decreases n
  {
    if n > 0 {
      PrefixIs(messages[1..], ok, n - 1);
    }
  }
}
