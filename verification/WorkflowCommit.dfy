/**
  One commit of the task runtime keeps the invariant of the database, whichever plan it
  concerns: the facts to be shown are about that plan alone.
 */
module WorkflowCommit {
  import opened Common
  import opened WorkflowRows
  import opened PlanLifecycle
  import opened PlanPreservation
  import opened WorkflowStore

  /** The inbox has grown by at most events of plan p, and the outbox only by events of plan p. */
  ghost predicate TouchesOnly(a: Db, b: Db, p: PlanId) {
    && a.outbox.Keys <= b.outbox.Keys
    && (forall e :: e in a.outbox ==> b.outbox[e] == a.outbox[e])
    && a.inbox <= b.inbox
    && (forall c, e :: (c, e) in b.inbox && (c, e) !in a.inbox ==> e in a.outbox && a.outbox[e].plan == p)
    && (forall t :: t in b.clarifications && b.clarifications[t].plan != p ==>
          t in a.clarifications && a.clarifications[t] == b.clarifications[t])
  }

  lemma OtherExecutionDriven(cfg: Config, a: Db, b: Db, p: PlanId, q: PlanId, x: ExecutionId)
    requires TouchesOnly(a, b, p) && p != q
    requires q in a.plans && q in b.plans && b.plans[q] == a.plans[q] && x in a.plans[q].executions
    requires ExecutionDriven(cfg, a, q, x)
    ensures ExecutionDriven(cfg, b, q, x)
  {
    var rec, e := a.plans[q], a.plans[q].executions[x];
    if e.status == ExecRunning && e.task in rec.tasks {
      var at := LeaseEnd(cfg, rec.tasks[e.task]);
      var id :| IsPlainAfter(a, q, at, id);
      assert IsPlainAfter(b, q, at, id);
    }
    if e.status == CompensationRequired {
      var id :| IsMatching(a, q, x, e.operation, id);
      assert IsMatching(b, q, x, e.operation, id);
    }
  }

  lemma OtherDriven(cfg: Config, a: Db, b: Db, p: PlanId, q: PlanId)
    requires TouchesOnly(a, b, p) && p != q
    requires q in a.plans && q in b.plans && b.plans[q] == a.plans[q] && Driven(cfg, a, q)
    ensures Driven(cfg, b, q)
  {
    var rec := a.plans[q];
    if Open(rec.status) && rec.current.None? {
      var id :| IsPlain(a, q, id);
      assert IsPlain(b, q, id);
    }
    forall x | x in rec.executions ensures ExecutionDriven(cfg, b, q, x) {
      OtherExecutionDriven(cfg, a, b, p, q, x);
    }
    if rec.status in {ReplanPending, RetryPending} || AnswerPending(a, q) {
      var id :| IsReplan(a, q, id);
      assert IsReplan(b, q, id);
    }
    if rec.status == Completed {
      var id :| IsAggregation(a, q, id);
      assert IsAggregation(b, q, id);
    }
  }

  lemma SamePlanOk(cfg: Config, a: Db, b: Db, r: PlanId)
    requires PlansOk(cfg, a) && b.turns == a.turns && r in a.plans && r in b.plans && b.plans[r] == a.plans[r]
    ensures PlanInv(cfg, b.plans[r]) && b.plans[r].turn in b.turns
  {
    assert PlanInv(cfg, a.plans[r]);
  }

  /** Only plans p and q have new rows, and these are consistent. */
  lemma OthersStayOk(cfg: Config, a: Db, b: Db, p: PlanId, q: PlanId)
    requires PlansOk(cfg, a) && b.turns == a.turns
    requires forall r :: r in b.plans && r != p && r != q ==> r in a.plans && b.plans[r] == a.plans[r]
    requires p in b.plans && PlanInv(cfg, b.plans[p]) && b.plans[p].turn in b.turns
    requires q in b.plans && PlanInv(cfg, b.plans[q]) && b.plans[q].turn in b.turns
    ensures PlansOk(cfg, b)
  {
    forall r | r in b.plans ensures PlanInv(cfg, b.plans[r]) && b.plans[r].turn in b.turns {
      if r != p && r != q {
        SamePlanOk(cfg, a, b, r);
      }
    }
  }

  lemma OthersStayDriven(cfg: Config, a: Db, b: Db, p: PlanId, q: PlanId)
    requires DrivenOk(cfg, a) && TouchesOnly(a, b, p)
    requires forall r :: r in b.plans && r != p && r != q ==> r in a.plans && b.plans[r] == a.plans[r]
    requires p in b.plans && Driven(cfg, b, p) && q in b.plans && Driven(cfg, b, q)
    ensures DrivenOk(cfg, b)
  {
    forall r | r in b.plans ensures Driven(cfg, b, r) {
      if r != p && r != q {
        assert Driven(cfg, a, r);
        OtherDriven(cfg, a, b, p, r);
      }
    }
  }

  /** A plan that has been given up, completed or declared unsupported stays so; a plan is superseded only by its successor. */
  predicate StatusMove(a: PlanStatus, b: PlanStatus) {
    || a == b
    || (a !in {Superseded, Completed, Unsupported} && b != Superseded && (Abandoned(a) ==> Abandoned(b)))
  }

  ghost predicate NewExecutionsFor(a: PlanRec, b: PlanRec, consume: Option<EventId>) {
    && (forall x :: x in b.executions && x !in a.executions ==> b.executions[x].claimedBy == consume)
    && (forall x, y :: x in b.executions && x !in a.executions && y in b.executions && y !in a.executions ==> x == y)
  }

  predicate GoodEmission(emit: Option<Emission>, status: PlanStatus) {
    emit.Some? ==>
      && (emit.value.EmitReplan? ==> Abandoned(status))
      && (emit.value.EmitAggregation? ==> status == Completed)
  }

  ghost predicate FreshEvent(db: Db, emit: Option<Emission>, id: EventId) {
    emit.Some? ==> id !in db.outbox
  }

  ghost predicate GoodConsume(db: Db, p: PlanId, consume: Option<EventId>) {
    consume.Some? ==>
      && consume.value in db.outbox && db.outbox[consume.value].plan == p
      && db.outbox[consume.value].kind.PlanWakeup? && (TaskRuntime, consume.value) !in db.inbox
  }

  // ---------- What every transaction leaves behind ----------

  /** Plans that are given up, superseded, completed or unsupported stay so. */
  predicate PlanMove(a: PlanStatus, b: PlanStatus) {
    && (Abandoned(a) ==> Abandoned(b))
    && (a == Superseded ==> b == Superseded)
    && (a == Completed ==> b == Completed)
    && (a == Unsupported ==> b == Unsupported)
  }

  ghost predicate PlanEvolves(a: Db, b: Db, p: PlanId) {
    p in a.plans ==> p in b.plans && Evolves(a.plans[p], b.plans[p]) && PlanMove(a.plans[p].status, b.plans[p].status)
  }

  predicate EventEvolves(a: Event, b: Event) {
    b.plan == a.plan && b.kind == a.kind && b.availableAt == a.availableAt
  }

  /** Rows are never lost: plans evolve, events keep their meaning, and inbox rows stay. */
  ghost predicate DbEvolves(a: Db, b: Db) {
    && (forall p {:trigger PlanEvolves(a, b, p)} :: PlanEvolves(a, b, p))
    && (forall e :: e in a.outbox ==> e in b.outbox && EventEvolves(a.outbox[e], b.outbox[e]))
    && a.inbox <= b.inbox && a.turns.Keys <= b.turns.Keys
  }

  /** A business transaction adds pending events and touches no other. */
  ghost predicate OutboxKept(a: Db, b: Db) {
    && (forall e :: e in a.outbox ==> e in b.outbox && b.outbox[e] == a.outbox[e])
    && (forall e :: e in b.outbox && e !in a.outbox ==> b.outbox[e].status == EventPending)
  }

  /** The invariant holds afterwards, and nothing went backwards. */
  ghost predicate Preserved(cfg: Config, a: Db, b: Db) {
    DbInv(cfg, b) && DbEvolves(a, b) && OutboxKept(a, b)
  }

  lemma PreservedRefl(cfg: Config, a: Db)
    requires DbInv(cfg, a)
    ensures Preserved(cfg, a, a)
  {
    forall p ensures PlanEvolves(a, a, p) {
      if p in a.plans {
        EvolvesRefl(a.plans[p]);
      }
    }
  }

  lemma DbEvolvesTrans(a: Db, b: Db, c: Db)
    requires DbEvolves(a, b) && DbEvolves(b, c)
    ensures DbEvolves(a, c)
  {
    forall p ensures PlanEvolves(a, c, p) {
      assert PlanEvolves(a, b, p) && PlanEvolves(b, c, p);
      if p in a.plans {
        EvolvesTrans(a.plans[p], b.plans[p], c.plans[p]);
      }
    }
  }

  lemma PreservedTrans(cfg: Config, a: Db, b: Db, c: Db)
    requires DbEvolves(a, b) && OutboxKept(a, b) && Preserved(cfg, b, c)
    ensures Preserved(cfg, a, c)
  {
    DbEvolvesTrans(a, b, c);
  }

  /** Only plan p's rows differ, and they have evolved. */
  lemma OnePlanEvolves(a: Db, b: Db, p: PlanId)
    requires TouchesOnly(a, b, p) && a.turns.Keys <= b.turns.Keys
    requires forall q :: q in a.plans && q != p ==> q in b.plans && b.plans[q] == a.plans[q]
    requires PlanEvolves(a, b, p)
    ensures DbEvolves(a, b)
  {
    forall q ensures PlanEvolves(a, b, q) {
      if q in a.plans && q != p {
        EvolvesRefl(a.plans[q]);
      }
    }
  }

  lemma CommitTouches(db: Db, p: PlanId, rec: PlanRec, emit: Option<Emission>, id: EventId, consume: Option<EventId>, now: int)
    requires rec.turn in db.turns && FreshEvent(db, emit, id) && GoodConsume(db, p, consume)
    ensures TouchesOnly(db, CommitPlan(db, p, rec, emit, id, consume, now), p)
  {
  }

  lemma CommitRevisions(db: Db, p: PlanId, rec: PlanRec, emit: Option<Emission>, id: EventId, consume: Option<EventId>, now: int)
    requires RevisionsOk(db) && p in db.plans && rec.turn in db.turns
    requires Evolves(db.plans[p], rec) && StatusMove(db.plans[p].status, rec.status)
    ensures RevisionsOk(CommitPlan(db, p, rec, emit, id, consume, now))
  {
    var b := CommitPlan(db, p, rec, emit, id, consume, now);
    forall q | q in b.plans ensures b.plans[q].status == Superseded <==> HasSuccessor(b, q) {
      if HasSuccessor(db, q) {
        var r :| r in db.plans && db.plans[r].parent == Some(q);
        assert r in b.plans && b.plans[r].parent == Some(q);
      }
      if HasSuccessor(b, q) {
        var r :| r in b.plans && b.plans[r].parent == Some(q);
        assert r in db.plans && db.plans[r].parent == Some(q);
      }
    }
    forall q | q in b.plans ensures ParentOk(b, q) {
      assert ParentOk(db, q);
    }
  }

  lemma CommitEvents(db: Db, p: PlanId, rec: PlanRec, emit: Option<Emission>, id: EventId, consume: Option<EventId>, now: int)
    requires EventsOk(db) && p in db.plans && rec.turn in db.turns
    requires Evolves(db.plans[p], rec) && StatusMove(db.plans[p].status, rec.status)
    requires FreshEvent(db, emit, id) && GoodConsume(db, p, consume) && GoodEmission(emit, rec.status)
    ensures EventsOk(CommitPlan(db, p, rec, emit, id, consume, now))
  {
    var b := CommitPlan(db, p, rec, emit, id, consume, now);
    forall e | e in b.outbox ensures EventOk(b, e) {
      if e in db.outbox {
        assert EventOk(db, e);
        assert b.outbox[e] == db.outbox[e];
      }
    }
  }

  lemma CommitClaims(db: Db, p: PlanId, rec: PlanRec, emit: Option<Emission>, id: EventId, consume: Option<EventId>, now: int)
    requires ClaimsOk(db) && p in db.plans && rec.turn in db.turns && Evolves(db.plans[p], rec)
    requires GoodConsume(db, p, consume) && NewExecutionsFor(db.plans[p], rec, consume)
    ensures ClaimsOk(CommitPlan(db, p, rec, emit, id, consume, now))
  {
    var b := CommitPlan(db, p, rec, emit, id, consume, now);
    forall q, x, e | ClaimedFor(b, q, x, e) ensures ClaimedFor(db, q, x, e) || (q == p && x !in db.plans[p].executions && consume == Some(e)) {
    }
    forall q, x, r, y, e | ClaimedFor(b, q, x, e) && ClaimedFor(b, r, y, e) ensures q == r && x == y {
    }
  }

  lemma CommitEvolves(db: Db, p: PlanId, rec: PlanRec, emit: Option<Emission>, id: EventId, consume: Option<EventId>, now: int)
    requires p in db.plans && rec.turn in db.turns && Evolves(db.plans[p], rec) && StatusMove(db.plans[p].status, rec.status)
    requires FreshEvent(db, emit, id) && GoodConsume(db, p, consume)
    ensures DbEvolves(db, CommitPlan(db, p, rec, emit, id, consume, now))
  {
    CommitTouches(db, p, rec, emit, id, consume, now);
    OnePlanEvolves(db, CommitPlan(db, p, rec, emit, id, consume, now), p);
  }

  lemma CommitKeeps(
    cfg: Config, db: Db, p: PlanId, rec: PlanRec, emit: Option<Emission>, id: EventId, consume: Option<EventId>, now: int)
    requires DbInv(cfg, db) && p in db.plans && rec.turn in db.turns
    requires PlanInv(cfg, rec) && Evolves(db.plans[p], rec) && StatusMove(db.plans[p].status, rec.status)
    requires FreshEvent(db, emit, id) && GoodConsume(db, p, consume) && GoodEmission(emit, rec.status)
    requires NewExecutionsFor(db.plans[p], rec, consume)
    requires Driven(cfg, CommitPlan(db, p, rec, emit, id, consume, now), p)
    ensures Preserved(cfg, db, CommitPlan(db, p, rec, emit, id, consume, now))
  {
    var b := CommitPlan(db, p, rec, emit, id, consume, now);
    CommitEvolves(db, p, rec, emit, id, consume, now);
    assert OutboxKept(db, b);
    CommitRevisions(db, p, rec, emit, id, consume, now);
    CommitEvents(db, p, rec, emit, id, consume, now);
    CommitClaims(db, p, rec, emit, id, consume, now);
    CommitTouches(db, p, rec, emit, id, consume, now);
    forall t | t in b.clarifications ensures ClarificationOk(b, t) {
      assert ClarificationOk(db, t);
    }
    forall q | q in b.plans ensures Driven(cfg, b, q) {
      if q != p {
        OtherDriven(cfg, db, b, p, q);
      }
    }
  }
}
