/**
  The task runtime as the program has it: each method is one short transaction that works
  on the rows step by step and commits by replacing the database. Every method is proved to
  compute the transaction of the same name on the old database, so what is proved about
  those transactions holds of these methods.
 */
module TaskRuntimeService {
  import opened Common
  import opened PlanDag
  import opened WorkflowRows
  import opened PlanLifecycle
  import opened PlanPreservation
  import opened PlanPublication
  import opened WorkflowStore
  import opened RuntimeTransactions

  // ---------- Queries ----------

  /** The first task of s by sequence number, then identifier. */
  method FirstTask(rec: PlanRec, s: set<TaskId>, start: TaskId) returns (first: TaskId)
    requires s <= rec.tasks.Keys && start in s
    ensures IsFirst(rec, s, first)
  {
    first := start;
    var rest := s - {start};
    while |rest| > 0
      invariant rest <= s && first in s
      invariant forall u :: u in s && u !in rest ==> Before(rec, first, u)
    {
      var u := Pick(rest);
      if !Before(rec, first, u) {
        first := u;
      }
      rest := rest - {u};
    }
  }

  lemma FirstUnique(rec: PlanRec, s: set<TaskId>, t: TaskId, u: TaskId)
    requires s <= rec.tasks.Keys && IsFirst(rec, s, t) && IsFirst(rec, s, u)
    ensures t == u
  {
  }

  lemma ListingStep(rec: PlanRec, s: set<TaskId>, t: TaskId)
    requires s <= rec.tasks.Keys && IsFirst(rec, s, t)
    ensures Listing(rec, s) == [t] + Listing(rec, s - {t})
  {
    assert exists u :: IsFirst(rec, s, u);
    var l := Listing(rec, s);
    assert t in l;
    FirstUnique(rec, s, l[0], t);
  }

  lemma ListedNext(rec: PlanRec, rest: set<TaskId>, t: TaskId, l: seq<TaskId>)
    requires rest <= rec.tasks.Keys && IsFirst(rec, rest, t)
    ensures l + Listing(rec, rest) == (l + [t]) + Listing(rec, rest - {t})
  {
    ListingStep(rec, rest, t);
    var tail := Listing(rec, rest - {t});
    assert l + ([t] + tail) == (l + [t]) + tail;
  }

  lemma ListingSize(rec: PlanRec, s: set<TaskId>)
    requires s <= rec.tasks.Keys
    ensures |Listing(rec, s)| == |s|
  {
    var l := Listing(rec, s);
    ElementsSize(l);
    assert Elements(l) == s;
  }

  /** `ORDER BY sequence, task_id` */
  method ListTasks(rec: PlanRec, s: set<TaskId>) returns (l: seq<TaskId>)
    requires s <= rec.tasks.Keys
    ensures l == Listing(rec, s)
  {
    l := [];
    var rest := s;
    while |rest| > 0
      invariant rest <= s
      invariant l + Listing(rec, rest) == Listing(rec, s)
    {
      var start := Pick(rest);
      var t := FirstTask(rec, rest, start);
      ListedNext(rec, rest, t, l);
      l := l + [t];
      rest := rest - {t};
    }
    ListingSize(rec, rest);
    assert l + Listing(rec, rest) == l;
  }

  lemma NextRunnableIs(rec: PlanRec, t: TaskId)
    requires FirstRunnable(rec, t)
    ensures NextRunnable(rec) == Some(t)
  {
    assert exists u :: FirstRunnable(rec, u);
  }

  /** The pending tasks are tried in order; the first with all its dependencies succeeded is taken. */
  method GetNextRunnable(rec: PlanRec) returns (r: Option<TaskId>)
    ensures r == NextRunnable(rec)
  {
    var pending := set t | t in rec.tasks && rec.tasks[t].status == Pending;
    var candidates := ListTasks(rec, pending);
    ListingAscends(rec, pending);
    var i := 0;
    while i < |candidates|
      invariant 0 <= i <= |candidates|
      invariant forall k :: 0 <= k < i ==> !Runnable(rec, candidates[k])
    {
      var t := candidates[i];
      assert t in candidates;
      if forall d :: d in rec.deps && d.0 == t ==> d.1 in rec.tasks && rec.tasks[d.1].status == Succeeded {
        FirstInOrder(rec, candidates, i);
        return Some(t);
      }
      NotRunnable(rec, t);
      i := i + 1;
    }
    forall u ensures !Runnable(rec, u) {
      if u in rec.tasks && rec.tasks[u].status == Pending {
        assert u in candidates;
        var k :| 0 <= k < |candidates| && candidates[k] == u;
      }
    }
    return None;
  }

  lemma NotRunnable(rec: PlanRec, t: TaskId)
    requires !(forall d :: d in rec.deps && d.0 == t ==> d.1 in rec.tasks && rec.tasks[d.1].status == Succeeded)
    ensures !Runnable(rec, t)
  {
    if Runnable(rec, t) {
      forall d | d in rec.deps && d.0 == t ensures d.1 in rec.tasks && rec.tasks[d.1].status == Succeeded {
        var u := d.1;
        assert d == (t, u);
        assert (t, u) in rec.deps;
      }
    }
  }

  lemma FirstInOrder(rec: PlanRec, candidates: seq<TaskId>, i: nat)
    requires i < |candidates| && Ascending(rec, candidates)
    requires forall t :: t in candidates <==> t in rec.tasks && rec.tasks[t].status == Pending
    requires forall k :: 0 <= k < i ==> !Runnable(rec, candidates[k])
    requires candidates[i] in rec.tasks && rec.tasks[candidates[i]].status == Pending
    requires forall d :: d in rec.deps && d.0 == candidates[i] ==> d.1 in rec.tasks && rec.tasks[d.1].status == Succeeded
    ensures NextRunnable(rec) == Some(candidates[i])
  {
    var t := candidates[i];
    assert Runnable(rec, t) by {
      forall u | (t, u) in rec.deps ensures u in rec.tasks && rec.tasks[u].status == Succeeded {
        var d := (t, u);
        assert d in rec.deps && d.0 == t;
      }
    }
    forall u | Runnable(rec, u) ensures Before(rec, t, u) {
      assert u in candidates;
      var k :| 0 <= k < |candidates| && candidates[k] == u;
    }
    NextRunnableIs(rec, t);
  }

  /** `ORDER BY attempt DESC LIMIT 1` over the executions of task t. */
  method GetLatestByTask(rec: PlanRec, t: TaskId) returns (r: Option<ExecutionId>)
    requires AttemptsOk(rec)
    ensures r == Latest(rec, t)
  {
    r := None;
    var rest := set x | x in rec.executions && rec.executions[x].task == t;
    ghost var all := rest;
    while |rest| > 0
      invariant rest <= all
      invariant r.None? ==> rest == all
      invariant r.Some? ==> r.value in all
      invariant r.Some? ==> forall y :: y in all && y !in rest ==>
                  rec.executions[y].attempt <= rec.executions[r.value].attempt
    {
      var x := Pick(rest);
      if r.None? || rec.executions[r.value].attempt < rec.executions[x].attempt {
        r := Some(x);
      }
      rest := rest - {x};
    }
    if r.Some? {
      assert IsLatest(rec, t, r.value);
      LatestIs(rec, t, r.value);
    } else {
      forall x ensures !IsLatest(rec, t, x) {
        assert x !in all;
      }
    }
  }

  /** `set_status`: the rows of s, one by one. */
  method SetStatus(tasks: map<TaskId, Task>, s: set<TaskId>, status: TaskStatus) returns (r: map<TaskId, Task>)
    requires s <= tasks.Keys
    ensures r.Keys == tasks.Keys
    ensures forall t :: t in tasks ==> r[t] == if t in s then tasks[t].(status := status) else tasks[t]
  {
    r := tasks;
    var rest := s;
    while |rest| > 0
      invariant rest <= s && r.Keys == tasks.Keys
      invariant forall t :: t in tasks ==>
                  r[t] == if t in s && t !in rest then tasks[t].(status := status) else tasks[t]
    {
      var t := Pick(rest);
      r := r[t := r[t].(status := status)];
      rest := rest - {t};
    }
    assert rest == {};
  }

  /** `list(dict.fromkeys(refs))` */
  method StableDedup(refs: seq<string>) returns (r: seq<string>)
    ensures r == Dedup(refs)
  {
    r := [];
    var i := 0;
    while i < |refs|
      invariant 0 <= i <= |refs|
      invariant r == Dedup(refs[..i])
    {
      assert refs[..i + 1][..i] == refs[..i] && refs[..i + 1][i] == refs[i];
      if refs[i] !in r {
        r := r + [refs[i]];
      }
      i := i + 1;
    }
    assert refs[..i] == refs;
  }

  // ---------- The service ----------

  class Runtime {
    const cfg: Config
    var db: Db

    constructor (cfg: Config, db: Db)
      ensures this.cfg == cfg && this.db == db
    {
      this.cfg := cfg;
      this.db := db;
    }

    method RecoverStaleExecution(rec: PlanRec, t: TaskId, now: int) returns (r: Stale)
      requires AttemptsOk(rec)
      ensures r == RecoverStale(cfg, rec, t, now)
    {
      if t !in rec.tasks {
        return Inconsistent;
      }
      var latest := GetLatestByTask(rec, t);
      if latest.None? {
        return Inconsistent;
      }
      var execution := rec.executions[latest.value];
      if execution.status == CompensationLocked || execution.status == CompensationRequired {
        return Found(latest.value, rec);
      }
      if execution.status != ExecRunning {
        return Inconsistent;
      }
      if now < rec.tasks[t].startedAt + cfg.Of(rec.tasks[t].capability).timeout {
        return InProgress;
      }
      execution := execution.(status := CompensationRequired, errorCode := EXECUTION_LEASE_EXPIRED,
                              retryable := true, blocked := false);
      return Found(latest.value, SetExecution(rec, latest.value, execution));
    }

    /** Add the inbox row and commit; without an event nothing is committed. */
    method CommitConsumed(p: PlanId, rec: PlanRec, event: Option<EventId>)
      requires p in db.plans && rec.turn in db.turns && (event.None? ==> rec == db.plans[p])
      modifies this`db
      ensures db == CommitPlan(old(db), p, rec, None, 0, event, 0)
    {
      if event.Some? {
        db := db.(plans := db.plans[p := rec], inbox := db.inbox + {(TaskRuntime, event.value)});
      } else {
        assert db.plans[p := rec] == db.plans;
      }
    }

    /** All retrying tasks of a plan become pending. */
    method RequeueRetrying(rec: PlanRec) returns (r: PlanRec)
      ensures r == Requeue(rec)
    {
      var retrying := set t | t in rec.tasks && rec.tasks[t].status == RetryWait;
      var tasks := SetStatus(rec.tasks, retrying, Pending);
      ghost var goal := Requeue(rec).tasks;
      assert forall t :: t in rec.tasks ==> tasks[t] == goal[t];
      assert tasks == goal;
      return rec.(tasks := tasks);
    }

    /** Task t is started: its row, its execution, the plan's current task. */
    method StartTask(rec: PlanRec, t: TaskId, ids: NewIds, event: Option<EventId>, now: int) returns (r: PlanRec)
      requires t in rec.tasks
      ensures r == StartAttempt(cfg, rec, t, ids, event, now)
    {
      var task := rec.tasks[t];
      var definition := cfg.Of(task.capability);
      var attempt := task.attemptCount + 1;
      task := task.(attemptCount := attempt);
      task := task.(maxAttempts := definition.maxAttempts);
      task := task.(status := TaskRunning, startedAt := now);
      r := rec.(tasks := rec.tasks[t := task]);
      r := r.(status := Running);
      r := r.(current := Some(t));
      var execution := Execution(
        t, attempt, ExecRunning, ids.operation, ids.agentRun, "", false, false, [], 0, event, []);
      r := r.(executions := r.executions[ids.execution := execution]);
    }

    /** `_claim_next`, run without interruption. */
    method ClaimNextTask(
      p: PlanId, event: Option<EventId>, wantedExecution: Option<ExecutionId>, wantedOperation: Option<OperationId>,
      ids: NewIds, id: EventId, now: int) returns (r: Option<ClaimOutcome>)
      requires p in db.plans ==> AttemptsOk(db.plans[p]) && db.plans[p].turn in db.turns
      modifies this`db
      ensures Recorded(old(db), event) ==> db == old(db) && r == Some(Terminal)
      ensures !Recorded(old(db), event) ==>
                (db, r) == Claim(cfg, old(db), p, event, wantedExecution, wantedOperation, ids, id, now)
    {
      if event.Some? && (TaskRuntime, event.value) in db.inbox {
        return Some(Terminal);
      }
      if p !in db.plans {
        return None;
      }
      var plan := db.plans[p];
      if plan.status in {Completed, PlanFailed, PlanCancelled, Superseded, ReplanPending} {
        CommitConsumed(p, plan, event);
        return Some(Terminal);
      }
      if plan.current.Some? {
        r := ClaimCurrent(p, event, wantedExecution, wantedOperation, ids, id, now);
        return;
      }
      if wantedExecution.Some? || wantedOperation.Some? || !(plan.status in {Ready, Running}) {
        CommitConsumed(p, plan, event);
        return Some(Terminal);
      }
      r := ClaimNextRunnable(p, event, ids, id, now);
    }

    /** The branch of a claim that finds a current task. */
    method ClaimCurrent(
      p: PlanId, event: Option<EventId>, wantedExecution: Option<ExecutionId>, wantedOperation: Option<OperationId>,
      ids: NewIds, id: EventId, now: int) returns (r: Option<ClaimOutcome>)
      requires p in db.plans && AttemptsOk(db.plans[p]) && db.plans[p].turn in db.turns && !Recorded(db, event)
      requires db.plans[p].current.Some?
      requires db.plans[p].status !in {Completed, PlanFailed, PlanCancelled, Superseded, ReplanPending}
      modifies this`db
      ensures (db, r) == Claim(cfg, old(db), p, event, wantedExecution, wantedOperation, ids, id, now)
    {
      var plan := db.plans[p];
      var stale := RecoverStaleExecution(plan, plan.current.value, now);
      match stale {
        case Inconsistent => return None;
        case InProgress =>
          CommitConsumed(p, plan, event);
          return Some(AlreadyRunning);
        case Found(x, found) =>
          r := ClaimFound(p, x, found, event, wantedExecution, wantedOperation, ids, id, now);
      }
    }

    /** The current execution is locked or needs its compensation. */
    method ClaimFound(
      p: PlanId, x: ExecutionId, found: PlanRec, event: Option<EventId>, wantedExecution: Option<ExecutionId>,
      wantedOperation: Option<OperationId>, ids: NewIds, id: EventId, now: int) returns (r: Option<ClaimOutcome>)
      requires p in db.plans && db.plans[p].turn in db.turns && !Recorded(db, event)
      requires db.plans[p].current.Some?
      requires RecoverStale(cfg, db.plans[p], db.plans[p].current.value, now) == Found(x, found)
      requires db.plans[p].status !in {Completed, PlanFailed, PlanCancelled, Superseded, ReplanPending}
      modifies this`db
      ensures (db, r) == Claim(cfg, old(db), p, event, wantedExecution, wantedOperation, ids, id, now)
    {
      ClaimFoundResult(cfg, db, p, x, found, event, wantedExecution, wantedOperation, ids, id, now);
      var execution := found.executions[x];
      if (wantedExecution.Some? && x != wantedExecution.value)
         || (wantedOperation.Some? && execution.operation != wantedOperation.value) {
        CommitConsumed(p, if event.Some? then found else db.plans[p], event);
        return Some(Terminal);
      }
      if execution.status == CompensationLocked {
        CommitConsumed(p, found, event);
        return Some(Locked(SnapshotOf(p, x, execution)));
      }
      db := db.(plans := db.plans[p := found]);
      return Some(Recover(SnapshotOf(p, x, execution)));
    }

    /** The branch of a claim that starts the next task, if there is one. */
    method ClaimNextRunnable(p: PlanId, event: Option<EventId>, ids: NewIds, id: EventId, now: int)
      returns (r: Option<ClaimOutcome>)
      requires p in db.plans && AttemptsOk(db.plans[p]) && db.plans[p].turn in db.turns && !Recorded(db, event)
      requires db.plans[p].current.None? && Open(db.plans[p].status)
      modifies this`db
      ensures (db, r) == Claim(cfg, old(db), p, event, None, None, ids, id, now)
    {
      var plan := RequeueRetrying(db.plans[p]);
      var next := GetNextRunnable(plan);
      var inbox := if event.Some? then db.inbox + {(TaskRuntime, event.value)} else db.inbox;
      if next.None? {
        ClaimNoTask(cfg, db, p, event, ids, id, now);
        db := db.(plans := db.plans[p := plan], inbox := inbox);
        return Some(NoTask);
      }
      var t := next.value;
      ClaimStartResult(cfg, db, p, event, ids, id, now, t);
      var timeout := cfg.Of(plan.tasks[t].capability).timeout;
      plan := StartTask(plan, t, ids, event, now);
      var wakeup := Event(p, PlanWakeup(None, None), EventPending, 0, now + timeout);
      db := db.(plans := db.plans[p := plan], outbox := db.outbox[id := wakeup], inbox := inbox);
      return Some(Claimed(SnapshotOf(p, ids.execution, plan.executions[ids.execution])));
    }

    // ---------- Completion and failure ----------

    /** `_lock_execution`: the rows of the snapshot, or an exception when its token is no longer valid. */
    method LockExecution(s: Snapshot) returns (valid: bool)
      ensures valid <==> Known(db, s.plan) && OwnsRunning(db.plans[s.plan], s)
    {
      if s.plan !in db.plans || db.plans[s.plan].turn !in db.turns {
        return false;
      }
      var plan := db.plans[s.plan];
      if s.task !in plan.tasks || s.execution !in plan.executions {
        return false;
      }
      var task, execution := plan.tasks[s.task], plan.executions[s.execution];
      if plan.current != Some(s.task) || task.status != TaskRunning || execution.status != ExecRunning
         || execution.attempt != s.attempt || execution.operation != s.operation || execution.agentRun != s.agentRun {
        return false;
      }
      return true;
    }

    method CountByStatus(rec: PlanRec, status: TaskStatus) returns (n: nat)
      ensures n > 0 <==> SomeTaskIn(rec, {status})
    {
      var found := set t | t in rec.tasks && rec.tasks[t].status == status;
      n := |found|;
      if n > 0 {
        var t := Pick(found);
        assert t in rec.tasks && rec.tasks[t].status in {status};
      } else if SomeTaskIn(rec, {status}) {
        var t :| t in rec.tasks && rec.tasks[t].status in {status};
        assert t in found;
      }
    }

    /** `_complete` */
    method CompleteExecution(s: Snapshot, refs: seq<string>, id: EventId, now: int) returns (r: Option<()>)
      modifies this`db
      ensures (db, r) == CompleteTask(old(db), s, refs, id, now)
    {
      var valid := LockExecution(s);
      if !valid {
        return None;
      }
      var plan := db.plans[s.plan];
      var execution := plan.executions[s.execution];
      var unique := StableDedup(refs);
      execution := execution.(status := ExecSucceeded);
      execution := execution.(resourceRefs := unique);
      plan := plan.(tasks := plan.tasks[s.task := plan.tasks[s.task].(status := Succeeded)]);
      plan := plan.(executions := plan.executions[s.execution := execution]);
      plan := plan.(current := None);
      ghost var done := plan;
      var pending := CountByStatus(plan, Pending);
      var retrying := CountByStatus(plan, RetryWait);
      var event: Option<Event> := None;
      if pending > 0 || retrying > 0 {
        event := Some(Event(s.plan, PlanWakeup(None, None), EventPending, 0, now));
      } else if forall t :: t in plan.tasks ==> plan.tasks[t].status == Succeeded {
        plan := plan.(status := Completed);
        event := Some(Event(s.plan, AggregationRequested, EventPending, 0, now));
      }
      PendingOrRetrying(done);
      CompleteCases(db.plans[s.plan], s, refs, done, now);
      db := db.(plans := db.plans[s.plan := plan],
                outbox := if event.Some? then db.outbox[id := event.value] else db.outbox);
      return Some(());
    }

    /** The tail of `_fail` and of `_complete_compensation`: another attempt, or the next revision. */
    method ReleaseOwnership(
      p: PlanId, t: TaskId, x: ExecutionId, row: Execution, again: TaskStatus, wakeAt: int, id: EventId,
      consume: Option<EventId>, now: int)
      requires Known(db, p) && t in db.plans[p].tasks
      modifies this`db
      ensures (db, Some(())) == Finish(old(db), p, Release(old(db).plans[p], t, x, row, again, wakeAt), id, consume, now)
    {
      var plan := db.plans[p];
      var task := plan.tasks[t];
      plan := plan.(current := None);
      var kind: EventKind;
      var at := now;
      if row.retryable && task.attemptCount < task.maxAttempts {
        task := task.(status := again);
        kind := PlanWakeup(None, None);
        at := wakeAt;
      } else {
        task := task.(status := if row.blocked then Blocked else TaskFailed);
        plan := plan.(status := ReplanPending);
        kind := ReplanRequested(
          plan.workflow, db.turns[plan.turn].conversation, plan.turn, p, plan.revision + 1,
          if row.blocked then TaskBlocked else TaskTerminalFailure);
      }
      plan := plan.(tasks := plan.tasks[t := task], executions := plan.executions[x := row]);
      db := db.(plans := db.plans[p := plan], outbox := db.outbox[id := Event(p, kind, EventPending, 0, at)],
                inbox := if consume.Some? then db.inbox + {(TaskRuntime, consume.value)} else db.inbox);
    }

    /** `_fail` */
    method FailExecution(s: Snapshot, error: TaskError, id: EventId, now: int) returns (r: Option<()>)
      modifies this`db
      ensures (db, r) == FailWithoutEffects(cfg, old(db), s, error, id, now)
    {
      var valid := LockExecution(s);
      if !valid {
        return None;
      }
      var execution := db.plans[s.plan].executions[s.execution];
      execution := execution.(status := ExecFailed);
      execution := execution.(errorCode := error.code, retryable := error.retryable, blocked := error.blocked);
      ReleaseOwnership(s.plan, s.task, s.execution, execution, RetryWait, now + cfg.retryDelay, id, None, now);
      return Some(());
    }

    /** `_require_compensation` */
    method RequireCompensationOf(s: Snapshot, error: TaskError, id: EventId, now: int) returns (r: Option<()>)
      modifies this`db
      ensures (db, r) == Require(old(db), s, error, id, now)
    {
      var valid := LockExecution(s);
      if !valid {
        return None;
      }
      var plan := db.plans[s.plan];
      var execution := plan.executions[s.execution];
      execution := execution.(status := CompensationRequired);
      execution := execution.(errorCode := error.code, retryable := error.retryable, blocked := error.blocked);
      plan := plan.(executions := plan.executions[s.execution := execution]);
      db := db.(plans := db.plans[s.plan := plan]);
      return Some(());
    }

    // ---------- Compensation ----------

    /** `_assert_compensation_token` */
    method CheckCompensationToken(s: Snapshot) returns (valid: bool)
      ensures valid <==> Known(db, s.plan) && OwnsCompensation(db.plans[s.plan], s)
    {
      if s.plan !in db.plans || db.plans[s.plan].turn !in db.turns {
        return false;
      }
      var plan := db.plans[s.plan];
      if s.task !in plan.tasks || s.execution !in plan.executions {
        return false;
      }
      var task, execution := plan.tasks[s.task], plan.executions[s.execution];
      if plan.current != Some(s.task) || task.status != TaskRunning || execution.status != CompensationRequired
         || execution.attempt != s.attempt || execution.operation != s.operation {
        return false;
      }
      return true;
    }

    /** `_begin_compensation_attempt` */
    method BeginCompensationAttempt(s: Snapshot, id: EventId, now: int) returns (r: Option<nat>)
      modifies this`db
      ensures (db, r) == Begin(old(db), s, id, now)
    {
      var valid := CheckCompensationToken(s);
      if !valid {
        return None;
      }
      var plan := db.plans[s.plan];
      var execution := plan.executions[s.execution];
      execution := execution.(compensationAttempts := execution.compensationAttempts + 1);
      plan := plan.(executions := plan.executions[s.execution := execution]);
      db := db.(plans := db.plans[s.plan := plan]);
      return Some(execution.compensationAttempts);
    }

    /** `delay * 2 ** (attempt - 1)`, capped */
    method BackoffDelay(attempt: nat) returns (delay: nat)
      requires attempt >= 1
      ensures delay == Backoff(cfg, attempt)
    {
      delay := cfg.compensationDelay;
      var i := 1;
      while i < attempt
        invariant 1 <= i <= attempt && delay == Doubled(cfg.compensationDelay, i - 1)
      {
        delay := 2 * delay;
        i := i + 1;
      }
      if delay >= cfg.compensationMaxDelay {
        delay := cfg.compensationMaxDelay;
      }
    }

    /** `_handle_compensation_failure` and `_lock_compensation` */
    method HandleCompensationFailure(s: Snapshot, attempt: nat, event: Option<EventId>, id: EventId, now: int)
      returns (r: Option<()>)
      requires attempt >= 1
      modifies this`db
      ensures (db, r) == CompensationFailed(cfg, old(db), s, attempt, event, id, now)
    {
      var valid := CheckCompensationToken(s);
      if !valid || db.plans[s.plan].executions[s.execution].compensationAttempts != attempt {
        return None;
      }
      var plan := db.plans[s.plan];
      var execution := plan.executions[s.execution];
      var outbox, inbox := db.outbox, db.inbox;
      if event.Some? && (TaskRuntime, event.value) !in inbox {
        inbox := inbox + {(TaskRuntime, event.value)};
      }
      if attempt >= cfg.maxCompensation {
        execution := execution.(status := CompensationLocked,
                                failures := execution.failures + [CompensationFailure(attempt, None)]);
      } else {
        var delay := BackoffDelay(attempt);
        execution := execution.(failures := execution.failures + [CompensationFailure(attempt, Some(delay))]);
        outbox := outbox[id :=
          Event(s.plan, PlanWakeup(Some(s.execution), Some(s.operation)), EventPending, 0, now + delay)];
      }
      plan := plan.(executions := plan.executions[s.execution := execution]);
      db := db.(plans := db.plans[s.plan := plan], outbox := outbox, inbox := inbox);
      return Some(());
    }

    /** `_complete_compensation` */
    method CompleteCompensation(s: Snapshot, event: Option<EventId>, id: EventId, now: int) returns (r: Option<()>)
      modifies this`db
      ensures (db, r) == CompensationDone(cfg, old(db), s, event, id, now)
    {
      var valid := CheckCompensationToken(s);
      if !valid || (event.Some? && (TaskRuntime, event.value) in db.inbox) {
        return None;
      }
      var execution := db.plans[s.plan].executions[s.execution];
      execution := execution.(status := Compensated);
      var again, wakeAt := RetryWait, now + cfg.retryDelay;
      if execution.errorCode == EXECUTION_LEASE_EXPIRED {
        again, wakeAt := Pending, now;
      }
      ReleaseOwnership(s.plan, s.task, s.execution, execution, again, wakeAt, id, event, now);
      return Some(());
    }
  }

  /** What a claim does with an execution that is locked or needs its compensation. */
  lemma ClaimFoundResult(
    cfg: Config, db: Db, p: PlanId, x: ExecutionId, found: PlanRec, event: Option<EventId>,
    wantedExecution: Option<ExecutionId>, wantedOperation: Option<OperationId>, ids: NewIds, id: EventId, now: int)
    requires Known(db, p) && db.plans[p].current.Some? && !Recorded(db, event)
    requires RecoverStale(cfg, db.plans[p], db.plans[p].current.value, now) == Found(x, found)
    requires db.plans[p].status !in {Completed, PlanFailed, PlanCancelled, Superseded, ReplanPending}
    ensures x in found.executions && found.turn == db.plans[p].turn
    ensures var e := found.executions[x];
            Claim(cfg, db, p, event, wantedExecution, wantedOperation, ids, id, now) ==
              if Mismatch(wantedExecution, x) || Mismatch(wantedOperation, e.operation) then
                (CommitPlan(db, p, if event.Some? then found else db.plans[p], None, id, event, now), Some(Terminal))
              else if e.status == CompensationLocked then
                (CommitPlan(db, p, found, None, id, event, now), Some(Locked(SnapshotOf(p, x, e))))
              else
                (CommitPlan(db, p, found, None, id, None, now), Some(Recover(SnapshotOf(p, x, e))))
  {
  }

  lemma ClaimNoTask(cfg: Config, db: Db, p: PlanId, event: Option<EventId>, ids: NewIds, id: EventId, now: int)
    requires Known(db, p) && db.plans[p].current.None? && Open(db.plans[p].status) && !Recorded(db, event)
    requires NextRunnable(Requeue(db.plans[p])).None?
    ensures Claim(cfg, db, p, event, None, None, ids, id, now) ==
            (CommitPlan(db, p, Requeue(db.plans[p]), None, id, event, now), Some(NoTask))
  {
  }

  lemma PendingOrRetrying(rec: PlanRec)
    ensures SomeTaskIn(rec, {Pending, RetryWait}) <==> SomeTaskIn(rec, {Pending}) || SomeTaskIn(rec, {RetryWait})
  {
    if SomeTaskIn(rec, {Pending, RetryWait}) {
      var t :| t in rec.tasks && rec.tasks[t].status in {Pending, RetryWait};
      assert rec.tasks[t].status in {Pending} || rec.tasks[t].status in {RetryWait};
    }
    if SomeTaskIn(rec, {Pending}) {
      var t :| t in rec.tasks && rec.tasks[t].status in {Pending};
      assert rec.tasks[t].status in {Pending, RetryWait};
    }
    if SomeTaskIn(rec, {RetryWait}) {
      var t :| t in rec.tasks && rec.tasks[t].status in {RetryWait};
      assert rec.tasks[t].status in {Pending, RetryWait};
    }
  }

  /** The three ends of a completion. */
  lemma CompleteCases(rec: PlanRec, s: Snapshot, refs: seq<string>, done: PlanRec, now: int)
    requires OwnsRunning(rec, s)
    requires done == Settle(rec, s.task, s.execution, Succeeded, SuccessRow(rec.executions[s.execution], refs))
    ensures Complete(rec, s, refs, now) ==
            if SomeTaskIn(done, {Pending, RetryWait}) then Committed(done, Some(EmitWakeup(None, None, now)), ())
            else if AllSucceeded(done) then Committed(done.(status := Completed), Some(EmitAggregation), ())
            else Committed(done, None, ())
  {
  }
}
