/**
  The publication of outbox events over every run: an event is dead exactly after its tenth
  failed publication, and until then it is published, or due to be published again.
 */
module OutboxLaws {
  import opened Common
  import opened WorkflowRows
  import opened PlanLifecycle
  import opened WorkflowStore
  import opened RuntimeTransactions
  import opened PlanningTransactions
  import opened WorkflowSystem

  /** The action records the outcome of a publication of event e, which is still pending. */
  predicate Records(st: Sys, a: Action, e: EventId, sent: bool) {
    && a.Mark? && At(st, a.job) == Marking(e, sent)
    && e in st.db.outbox && st.db.outbox[e].status == EventPending
  }

  /** Events stay as they are; new ones are pending and have not been tried. */
  ghost predicate OnlyFreshEvents(a: Db, b: Db) {
    && (forall e :: e in a.outbox ==> e in b.outbox && b.outbox[e] == a.outbox[e])
    && (forall e :: e in b.outbox && e !in a.outbox ==> b.outbox[e].status == EventPending && b.outbox[e].attempts == 0)
  }

  // ---------- Transactions leave recorded events alone ----------

  lemma CommitFresh(
    db: Db, p: PlanId, rec: PlanRec, emit: Option<Emission>, id: EventId, consume: Option<EventId>, now: int)
    requires rec.turn in db.turns && id !in db.outbox
    ensures OnlyFreshEvents(db, CommitPlan(db, p, rec, emit, id, consume, now))
  {
  }

  lemma FinishFresh<T>(db: Db, p: PlanId, r: Tx<T>, id: EventId, consume: Option<EventId>, now: int)
    requires id !in db.outbox || (r.Committed? ==> r.emit.None?)
    ensures OnlyFreshEvents(db, Finish(db, p, r, id, consume, now).0)
  {
  }

  lemma ExecutionFresh(cfg: Config, st: Sys, a: Action)
    requires a.Succeed? || a.Fail?
    ensures OnlyFreshEvents(st.db, ExecRuntime(cfg, st, a).db)
  {
    if At(st, a.job).Executing? && NewEvent(st, a.id) {
      var s := At(st, a.job).snapshot;
      if Known(st.db, s.plan) {
        var rec := st.db.plans[s.plan];
        match a
        case Succeed(j, refs, id) => FinishFresh(st.db, s.plan, Complete(rec, s, refs, st.now), id, None, st.now);
        case Fail(j, error, id) =>
          FinishFresh(st.db, s.plan, FailTask(cfg, rec, s, error, st.now), id, None, st.now);
          FinishFresh(st.db, s.plan, RequireCompensation(rec, s, error), id, None, st.now);
      }
    }
  }

  lemma CompensationFresh(cfg: Config, st: Sys, a: Action)
    requires a.BeginAttempt? || a.AttemptFails? || a.AttemptSucceeds?
    ensures OnlyFreshEvents(st.db, ExecRuntime(cfg, st, a).db)
  {
    match a
    case BeginAttempt(j) =>
      if At(st, j).Recovering? {
        var s := At(st, j).snapshot;
        if Known(st.db, s.plan) {
          FinishFresh(st.db, s.plan, BeginCompensation(st.db.plans[s.plan], s), 0, None, st.now);
        }
      }
    case AttemptFails(j, id) =>
      if At(st, j).Compensating? && At(st, j).attempt >= 1 && NewEvent(st, id) {
        var c := At(st, j);
        if Known(st.db, c.snapshot.plan) {
          FinishFresh(st.db, c.snapshot.plan,
                      FailCompensation(cfg, st.db.plans[c.snapshot.plan], c.snapshot, c.attempt, st.now), id,
                      if Recorded(st.db, c.wakeup) then None else c.wakeup, st.now);
        }
      }
    case AttemptSucceeds(j, id) =>
      if At(st, j).Compensating? && NewEvent(st, id) {
        var c := At(st, j);
        if Known(st.db, c.snapshot.plan) {
          FinishFresh(st.db, c.snapshot.plan, FinishCompensation(cfg, st.db.plans[c.snapshot.plan], c.snapshot, st.now), id,
                      c.wakeup, st.now);
        }
      }
  }

  lemma ClaimFresh(cfg: Config, st: Sys, a: Action)
    requires a.ClaimFor?
    ensures OnlyFreshEvents(st.db, ExecRuntime(cfg, st, a).db)
  {
    if At(st, a.job).Claiming? && NewEvent(st, a.id) && Known(st.db, At(st, a.job).plan) {
      var c := At(st, a.job);
      var r := ClaimNext(cfg, c.plan, st.db.plans[c.plan], c.wakeup, c.wantedExecution, c.wantedOperation, a.ids, st.now);
      if r.Committed? && r.rec.turn in st.db.turns {
        CommitFresh(st.db, c.plan, r.rec, r.emit, a.id, if r.out.Recover? then None else c.wakeup, st.now);
      }
    }
  }

  lemma PublicationFresh(db: Db, p: PlanId, t: TurnId, id: EventId, now: int)
    requires id !in db.outbox
    ensures OnlyFreshEvents(db, Finalize(db, p, t, id, now).0)
  {
  }

  lemma RetryFresh(db: Db, p: PlanId, blank: bool, id: EventId, now: int)
    requires id !in db.outbox
    ensures OnlyFreshEvents(db, MarkRetryPending(db, p, blank, id, now).0)
  {
  }

  lemma AnswerFresh(db: Db, t: TurnId, c: ConversationId, blank: bool, id: EventId, now: int)
    requires id !in db.outbox
    ensures OnlyFreshEvents(db, Answer(db, t, c, blank, id, now).0)
  {
  }

  lemma PlannerFresh(st: Sys, a: Action)
    requires a.PublishPlan? || a.RetryPlanning? || a.AnswerUser?
    ensures OnlyFreshEvents(st.db, ExecPlanning(st, a).db)
  {
    if NewEvent(st, a.id) {
      match a
      case PublishPlan(p, t, id) => PublicationFresh(st.db, p, t, id, st.now);
      case RetryPlanning(p, blank, id) => RetryFresh(st.db, p, blank, id, st.now);
      case AnswerUser(t, c, blank, id) => AnswerFresh(st.db, t, c, blank, id, st.now);
    }
  }

  lemma PlanningFresh(st: Sys, a: Action)
    ensures OnlyFreshEvents(st.db, ExecPlanning(st, a).db)
  {
    if a.PublishPlan? || a.RetryPlanning? || a.AnswerUser? {
      PlannerFresh(st, a);
    }
  }

  lemma DispatchFresh(st: Sys, a: Action)
    requires IsDispatchAction(a)
    ensures ExecDispatch(st, a).db.outbox == st.db.outbox
  {
  }

  lemma OtherStepsAddOnly(cfg: Config, st: Sys, a: Action)
    requires !a.Mark?
    ensures OnlyFreshEvents(st.db, Exec(cfg, st, a).db)
  {
    if IsRuntimeAction(st, a) {
      if a.ClaimFor? {
        ClaimFresh(cfg, st, a);
      } else if a.Succeed? || a.Fail? {
        ExecutionFresh(cfg, st, a);
      } else if !a.CheckInbox? {
        CompensationFresh(cfg, st, a);
      }
    } else if IsDispatchAction(a) {
      DispatchFresh(st, a);
    } else if !IsMessagingAction(a) {
      PlanningFresh(st, a);
    }
  }

  // ---------- One step ----------

  /** What one step makes of an event: published, one more failure, or nothing; dead with the tenth failure. */
  lemma StepRecords(cfg: Config, st: Sys, a: Action, e: EventId)
    requires e in st.db.outbox
    ensures var b := Exec(cfg, st, a).db;
            && e in b.outbox
            && b.outbox[e] ==
               if Records(st, a, e, true) then st.db.outbox[e].(status := Published)
               else if Records(st, a, e, false) then
                 st.db.outbox[e].(attempts := st.db.outbox[e].attempts + 1,
                                  status := if st.db.outbox[e].attempts + 1 >= 10 then DeadLetter else EventPending)
               else st.db.outbox[e]
  {
    if !a.Mark? {
      OtherStepsAddOnly(cfg, st, a);
    }
  }

  // ---------- Over runs ----------

  /** How often a run records that outcome of a publication of e. */
  ghost function TimesRecorded(cfg: Config, st: Sys, actions: seq<Action>, e: EventId, sent: bool): nat
    decreases |actions|
  {
    if actions == [] then 0
    else (if Records(st, actions[0], e, sent) then 1 else 0) +
         TimesRecorded(cfg, Exec(cfg, st, actions[0]), actions[1..], e, sent)
  }

  /** From an event that is still pending: its failures are counted, and its state follows from what was recorded. */
  lemma {:induction false} PendingEvent(cfg: Config, st: Sys, actions: seq<Action>, e: EventId)
    requires e in st.db.outbox && st.db.outbox[e].status == EventPending && st.db.outbox[e].attempts < 10
    ensures var event, failed := st.db.outbox[e], TimesRecorded(cfg, st, actions, e, false);
            var later := Run(cfg, st, actions).db;
            && e in later.outbox && later.outbox[e].attempts == event.attempts + failed <= 10
            && TimesRecorded(cfg, st, actions, e, true) <= 1
            && (later.outbox[e].status == DeadLetter <==> event.attempts + failed == 10)
            && (later.outbox[e].status == Published <==> TimesRecorded(cfg, st, actions, e, true) == 1)
    decreases |actions|
  {
    if actions != [] {
      var next := Exec(cfg, st, actions[0]);
      StepRecords(cfg, st, actions[0], e);
      if next.db.outbox[e].status == EventPending {
        PendingEvent(cfg, next, actions[1..], e);
      } else {
        SettledEvent(cfg, next, actions[1..], e);
      }
    }
  }

  /** A published or dead event stays as it is, and nothing is recorded for it any more. */
  lemma {:induction false} SettledEvent(cfg: Config, st: Sys, actions: seq<Action>, e: EventId)
    requires e in st.db.outbox && st.db.outbox[e].status != EventPending
    ensures var later := Run(cfg, st, actions).db;
            && e in later.outbox && later.outbox[e] == st.db.outbox[e]
            && TimesRecorded(cfg, st, actions, e, false) == 0 && TimesRecorded(cfg, st, actions, e, true) == 0
    decreases |actions|
  {
    if actions != [] {
      StepRecords(cfg, st, actions[0], e);
      SettledEvent(cfg, Exec(cfg, st, actions[0]), actions[1..], e);
    }
  }

  lemma {:induction false} NewEventIsCounted(cfg: Config, st: Sys, actions: seq<Action>, e: EventId)
    requires e !in st.db.outbox && e in Run(cfg, st, actions).db.outbox
    ensures Follows(cfg, st, actions, e)
    decreases |actions|
  {
    var next := Exec(cfg, st, actions[0]);
    if e in next.db.outbox {
      if !actions[0].Mark? {
        OtherStepsAddOnly(cfg, st, actions[0]);
      }
      PendingEvent(cfg, next, actions[1..], e);
    } else {
      NewEventIsCounted(cfg, next, actions[1..], e);
    }
  }

  /** The state of event e after the run is the one that its recorded publications make. */
  ghost predicate Follows(cfg: Config, st: Sys, actions: seq<Action>, e: EventId)
    requires e in Run(cfg, st, actions).db.outbox
  {
    var event := Run(cfg, st, actions).db.outbox[e];
    var failed, sent := TimesRecorded(cfg, st, actions, e, false), TimesRecorded(cfg, st, actions, e, true);
    && event.attempts == failed <= 10 && sent <= 1
    && (event.status == DeadLetter <==> failed == 10)
    && (event.status == Published <==> sent == 1)
    && (event.status == EventPending <==> failed < 10 && sent == 0)
  }

  /**
    In every run, the attempts of an event are its recorded failures. It is dead exactly after
    ten of them, published exactly after a recorded success, and pending otherwise.
   */
  lemma DeadAfterTenFailures(cfg: Config, actions: seq<Action>, e: EventId)
    requires e in Run(cfg, INITIAL, actions).db.outbox
    ensures Follows(cfg, INITIAL, actions, e)
  {
    NewEventIsCounted(cfg, INITIAL, actions, e);
  }

  /** A publisher takes an event exactly if it is pending and due. */
  lemma LoadOutcome(cfg: Config, st: Sys, j: JobId, e: EventId)
    requires j !in st.jobs
    ensures Exec(cfg, st, Load(j, e)) ==
            if e in st.db.outbox && st.db.outbox[e].status == EventPending && st.db.outbox[e].availableAt <= st.now
            then st.(jobs := st.jobs[j := Job(None, Publishing(e))]) else st
  {
  }

  lemma SendIsAccepted(cfg: Config, st: Sys, j: JobId, n: EntryId, e: EventId)
    requires At(st, j) == Publishing(e) && n !in st.stream
    ensures var b := Exec(cfg, st, Send(j, n, true, true));
            At(b, j) == Marking(e, true) && b.stream == st.stream[n := e] && b.db == st.db
  {
  }

  lemma MarkIsAccepted(cfg: Config, st: Sys, j: JobId, e: EventId)
    requires At(st, j) == Marking(e, true) && e in st.db.outbox && st.db.outbox[e].status == EventPending
    ensures var b := Exec(cfg, st, Mark(j));
            e in b.db.outbox && b.db.outbox[e].status == Published && b.stream == st.stream && j !in b.jobs
  {
    StepRecords(cfg, st, Mark(j), e);
  }

  /** A pending event that is due can always be loaded, sent and marked, and is then in the stream. */
  lemma DueEventCanBePublished(cfg: Config, st: Sys, j: JobId, n: EntryId, e: EventId)
    requires e in st.db.outbox && st.db.outbox[e].status == EventPending && st.db.outbox[e].availableAt <= st.now
    requires j !in st.jobs && n !in st.stream
    ensures var b := Exec(cfg, Exec(cfg, Exec(cfg, st, Load(j, e)), Send(j, n, true, true)), Mark(j));
            && e in b.db.outbox && b.db.outbox[e].status == Published
            && n in b.stream && b.stream[n] == e && j !in b.jobs
  {
    var loaded := Exec(cfg, st, Load(j, e));
    LoadOutcome(cfg, st, j, e);
    SendIsAccepted(cfg, loaded, j, n, e);
    MarkIsAccepted(cfg, Exec(cfg, loaded, Send(j, n, true, true)), j, e);
  }
}
