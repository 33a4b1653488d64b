/** Creating tasks and attempts keeps the store's invariant: a first attempt, a
    retry of a failed task, and a follow-up on an open pull request. */
module StoreResets {
  import opened Wrappers
  import opened TaskState
  import opened Rows
  import opened StoreSpec
  import opened ForgeInbox
  import opened StoreInvariant
  import opened StoreSteps

  // -------------------------------------------------------------------- new tasks

  lemma CreateKeeps(db: Db, clock: int, op: Op, now: int)
    requires Inv(db, clock) && op.Create?
    ensures Inv(Step(db, op, now), clock) && Advances(db, clock, Step(db, op, now))
  {
    hide Blank;
    var t, a, key := op.newTask, op.newAttempt, op.key;
    var db' := Step(db, op, now);
    if db' == db {
      hide Inv, Advances;
      AdvancesIsReflexive(db, clock);
    } else {
      NewTaskKeeps(db, clock, t, a, db'.createIntents, key);
    }
  }

  ghost predicate AddsIntent(before: map<Key, TaskId>, after: map<Key, TaskId>, key: Key, t: TaskId) {
    after == before || (key !in before && after == before[key := t])
  }

  lemma NewTaskKeeps(db: Db, clock: int, t: TaskId, a: AttemptId, intents: map<Key, TaskId>, key: Key)
    requires Inv(db, clock) && t !in db.tasks && a !in db.attempts && AddsIntent(db.createIntents, intents, key, t)
    ensures var db' := db.(tasks := db.tasks[t := TaskRow(Received, a, false, [])], attempts := db.attempts[a := BlankAttempt(t)], createIntents := intents);
            Inv(db', clock) && Advances(db, clock, db')
  {
    hide TasksOk, AttemptsOk, InboxOk, RowsAdvance, InboxAdvances;
    var db' := db.(tasks := db.tasks[t := TaskRow(Received, a, false, [])], attempts := db.attempts[a := BlankAttempt(t)], createIntents := intents);
    NewTaskRows(db, db', t, a);
    InboxFrame(db, clock, db');
    SameInboxAdvances(db, clock, db');
  }

  ghost predicate AddsTask(db: Db, db': Db, t: TaskId, a: AttemptId) {
    && t !in db.tasks && a !in db.attempts && db'.outbox == db.outbox
    && db'.tasks == db.tasks[t := TaskRow(Received, a, false, [])] && db'.attempts == db.attempts[a := BlankAttempt(t)]
  }

  lemma NewTaskKeepsAttempt(db: Db, db': Db, t: TaskId, a: AttemptId, b: AttemptId)
    requires AddsTask(db, db', t, a) && b in db.attempts && AttemptOk(db, b)
    ensures AttemptOk(db', b) && Superseded(db', b) == Superseded(db, b) && db.attempts[b].task != t
  {
    hide RowOk;
    assert HasPendingWorkerEvents(db', db.attempts[b].task, b) == HasPendingWorkerEvents(db, db.attempts[b].task, b);
  }

  lemma NewTaskKeepsTasks(db: Db, db': Db, t: TaskId, a: AttemptId)
    requires TasksOk(db) && AddsTask(db, db', t, a)
    ensures TasksOk(db')
  {
    hide RowOk, Terminal, LogFrom, Numbered;
    assert SameIdentities(db, db');
    forall u | u in db'.tasks ensures TaskOk(db', u) {
      if u == t {
        NewTaskIsOk(db', t, a);
      } else {
        assert TaskOk(db, u);
        TaskFrame(db, db', u);
      }
    }
  }

  lemma NewTaskKeepsSibling(db: Db, db': Db, t: TaskId, a: AttemptId, b: AttemptId, c: AttemptId)
    requires AddsTask(db, db', t, a) && b in db'.attempts && c in db'.attempts
    requires b in db.attempts ==> db.attempts[b].task in db.tasks
    requires c in db.attempts ==> db.attempts[c].task in db.tasks
    requires b in db.attempts && c in db.attempts ==> Siblings(db, b, c)
    ensures Siblings(db', b, c)
  {
  }

  lemma NewTaskKeepsAttempts(db: Db, db': Db, t: TaskId, a: AttemptId)
    requires AttemptsOk(db) && AddsTask(db, db', t, a)
    ensures AttemptsOk(db')
    ensures forall b | b in db.attempts :: Superseded(db', b) == Superseded(db, b)
  {
    hide RowOk, Drained;
    forall b | b in db.attempts ensures AttemptOk(db', b) && Superseded(db', b) == Superseded(db, b) && db.attempts[b].task in db.tasks {
      hide Siblings;
      assert AttemptOk(db, b);
      NewTaskKeepsAttempt(db, db', t, a, b);
    }
    BlankIsOk(t);
    forall b, c | b in db'.attempts && c in db'.attempts ensures Siblings(db', b, c) {
      hide AttemptOk;
      assert b in db.attempts && c in db.attempts ==> Siblings(db, b, c);
      NewTaskKeepsSibling(db, db', t, a, b, c);
    }
  }

  lemma NewTaskRows(db: Db, db': Db, t: TaskId, a: AttemptId)
    requires TasksOk(db) && AttemptsOk(db) && AddsTask(db, db', t, a)
    ensures TasksOk(db') && AttemptsOk(db') && RowsAdvance(db, db')
  {
    hide TasksOk, AttemptsOk, Superseded;
    NewTaskKeepsTasks(db, db', t, a);
    NewTaskKeepsAttempts(db, db', t, a);
  }

  lemma BlankIsOk(t: TaskId)
    ensures RowOk(BlankAttempt(t))
  {
  }

  lemma NewTaskIsOk(db: Db, t: TaskId, a: AttemptId)
    requires t in db.tasks && db.tasks[t] == TaskRow(Received, a, false, []) && a in db.attempts && db.attempts[a] == BlankAttempt(t)
    ensures TaskOk(db, t)
  {
    assert LogFrom(db, t, a);
    assert NumberOf(db, t, 1, a);
    assert Numbered(db, t, 1);
  }

  // ----------------------------------------------------------------------- resets

  lemma NextNumberIsNext(db: Db, t: TaskId)
    requires TasksOk(db) && AttemptsOk(db) && t in db.tasks
    ensures TaskOk(db, t) && NextNumber(db, t) == db.attempts[db.tasks[t].current].number + 1
  {
    hide LogFrom, Numbered, RowOk, Siblings, Drained;
    assert TaskOk(db, t);
    var n := db.attempts[db.tasks[t].current].number;
    assert n in Numbers(db, t);
    forall x | x in Numbers(db, t) ensures x <= n {
      var a :| a in db.attempts && db.attempts[a].task == t && db.attempts[a].number == x;
      assert AttemptOk(db, a);
    }
  }

  /** What a reset may do to the inbox: bind running or pending events to the new attempt. */
  ghost predicate Rebinds(db: Db, t: TaskId, id: AttemptId, next: map<ForgeEventId, ForgeEvent>, now: int) {
    && next.Keys == db.inbox.Keys
    && (forall e | e in db.inbox :: BoundTo(db.inbox[e], next[e], t, id, now))
  }

  ghost predicate BoundTo(e: ForgeEvent, f: ForgeEvent, t: TaskId, id: AttemptId, now: int) {
    || (f == e && !(e.status == EventRunning && e.task == Some(t)))
    || (&& f.kind == e.kind && f.at == e.at && f.updatedAt == now && f.status == EventRunning && f.task == Some(t) && f.attempt == Some(id)
        && (e.status == EventPending || (e.status == EventRunning && e.task == Some(t))))
  }

  /** The new attempt: freshly queued, next in number, with at most a copy of the
      current attempt's open pull request. */
  ghost predicate Resettable(db: Db, t: TaskId, id: AttemptId, row: AttemptRow) {
    && t in db.tasks && TaskOk(db, t) && id !in db.attempts
    && var r := db.tasks[t];
    && var a := db.attempts[r.current];
    && (CanRetry(r.state, Queued) || CanFollowUp(r.state, Queued)) && !r.cancel
    && a.logsExhausted && !HasPendingWorkerEvents(db, t, r.current)
    && row == QueuedAttempt(t, a.number + 1, row.prompt, row.baseBranch, row.taskBranch, row.manifest, row.pr)
    && (row.pr.None? || (OpenPr(a) && row.pr == a.pr))
  }

  lemma ResetTask(db: Db, t: TaskId, id: AttemptId, row: AttemptRow, db': Db)
    requires Resettable(db, t, id, row)
    requires db'.tasks == db.tasks[t := TaskRow(Queued, id, false, db.tasks[t].log + [AuditEvent(id, db.tasks[t].state, Queued)])]
    requires db'.attempts == db.attempts[id := row]
    ensures TaskOk(db', t)
  {
    hide Numbered, ReplayLog, OpenPr, HasPendingWorkerEvents, CanTransition;
    var r := db.tasks[t];
    var n := db.attempts[r.current].number;
    assert SameIdentities(db, db');
    forall k: nat | 1 <= k <= n + 1 ensures Numbered(db', t, k) {
      if k <= n {
        NumberedFrame(db, db', t, k);
      } else {
        NumberedBy(db', t, k, id);
      }
    }
    var first :| LogFrom(db, t, first);
    ReplayAppend(r.log, AuditEvent(id, r.state, Queued), first);
    CanTransitionIsAdjacency(r.state, Queued);
    assert LogFrom(db', t, first);
  }

  lemma NumberedBy(db: Db, t: TaskId, k: nat, a: AttemptId)
    requires NumberOf(db, t, k, a)
    ensures Numbered(db, t, k)
  {
  }

  lemma ResetAttempt(db: Db, t: TaskId, id: AttemptId, row: AttemptRow, db': Db, a: AttemptId)
    requires Resettable(db, t, id, row) && OutboxOk(db) && db'.outbox == db.outbox
    requires t in db'.tasks && db'.tasks == db.tasks[t := db'.tasks[t]] && db'.tasks[t].current == id
    requires db'.attempts == db.attempts[id := row]
    requires a in db.attempts && AttemptOk(db, a)
    ensures AttemptOk(db', a) && (Superseded(db, a) ==> Superseded(db', a))
    ensures Superseded(db', a) == (Superseded(db, a) || a == db.tasks[t].current)
  {
    hide RowOk, LogFrom, Numbered, CanTransition, OpenPr, Terminal;
    assert HasPendingWorkerEvents(db', db.attempts[a].task, a) == HasPendingWorkerEvents(db, db.attempts[a].task, a);
  }

  lemma NewRowIsOk(db: Db, t: TaskId, id: AttemptId, row: AttemptRow)
    requires Resettable(db, t, id, row) && RowOk(db.attempts[db.tasks[t].current])
    ensures RowOk(row)
  {
    hide TaskOk, HasPendingWorkerEvents, CanRetry, CanFollowUp;
  }

  /** The new attempt against an older one: the copied pull request agrees with all. */
  lemma ResetSibling(db: Db, t: TaskId, id: AttemptId, row: AttemptRow, db': Db, b: AttemptId)
    requires Resettable(db, t, id, row) && b in db.attempts && AttemptOk(db, b)
    requires t in db'.tasks && db'.tasks == db.tasks[t := db'.tasks[t]] && db'.tasks[t].current == id
    requires db'.attempts == db.attempts[id := row]
    requires Siblings(db, db.tasks[t].current, b)
    ensures Siblings(db', id, b) && Siblings(db', b, id)
  {
    hide RowOk, LogFrom, Numbered, CanTransition, Terminal, HasPendingWorkerEvents, CanRetry, CanFollowUp;
  }

  lemma ResetSiblings(db: Db, t: TaskId, id: AttemptId, row: AttemptRow, db': Db)
    requires AttemptsOk(db) && Resettable(db, t, id, row)
    requires t in db'.tasks && db'.tasks == db.tasks[t := db'.tasks[t]] && db'.tasks[t].current == id
    requires db'.attempts == db.attempts[id := row]
    ensures forall a, b {:trigger Siblings(db', a, b)} | a in db'.attempts && b in db'.attempts :: Siblings(db', a, b)
  {
    hide RowOk, LogFrom, Numbered, Terminal, Drained;
    var current := db.tasks[t].current;
    forall a, b | a in db'.attempts && b in db'.attempts ensures Siblings(db', a, b) {
      hide Resettable;
      assert a != id ==> AttemptOk(db, a) && Siblings(db, current, a);
      assert b != id ==> AttemptOk(db, b) && Siblings(db, current, b);
      if a == id && b != id {
        ResetSibling(db, t, id, row, db', b);
      } else if b == id && a != id {
        ResetSibling(db, t, id, row, db', a);
      } else if a != id && b != id {
        assert Siblings(db, a, b);
      }
    }
  }

  lemma ResetKeepsRows(db: Db, t: TaskId, id: AttemptId, row: AttemptRow, db': Db)
    requires TasksOk(db) && AttemptsOk(db) && OutboxOk(db) && Resettable(db, t, id, row) && db'.outbox == db.outbox
    requires db'.tasks == db.tasks[t := TaskRow(Queued, id, false, db.tasks[t].log + [AuditEvent(id, db.tasks[t].state, Queued)])]
    requires db'.attempts == db.attempts[id := row]
    ensures TasksOk(db') && AttemptsOk(db') && RowsAdvance(db, db')
  {
    hide RowOk, LogFrom, Numbered, Terminal, Drained;
    var current := db.tasks[t].current;
    assert SameIdentities(db, db');
    forall u | u in db'.tasks ensures TaskOk(db', u) {
      hide AttemptOk, Siblings;
      if u == t {
        ResetTask(db, t, id, row, db');
      } else {
        hide Resettable;
        assert TaskOk(db, u);
        TaskFrame(db, db', u);
      }
    }
    forall a | a in db'.attempts ensures AttemptOk(db', a) {
      hide Siblings;
      assert AttemptOk(db, current);
      if a == id {
        NewRowIsOk(db, t, id, row);
      } else {
        assert AttemptOk(db, a);
        hide Resettable, AttemptOk;
        ResetAttempt(db, t, id, row, db', a);
      }
    }
    ResetSiblings(db, t, id, row, db');
    ResetAdvances(db, t, id, row, db');
  }

  lemma ResetAdvances(db: Db, t: TaskId, id: AttemptId, row: AttemptRow, db': Db)
    requires AttemptsOk(db) && OutboxOk(db) && Resettable(db, t, id, row) && db'.outbox == db.outbox
    requires db'.tasks == db.tasks[t := TaskRow(Queued, id, false, db.tasks[t].log + [AuditEvent(id, db.tasks[t].state, Queued)])]
    requires db'.attempts == db.attempts[id := row]
    ensures RowsAdvance(db, db')
  {
    hide AttemptOk, Siblings, LogFrom, Numbered, HasPendingWorkerEvents;
    EdgesClimb(db.tasks[t].state, Queued);
  }

  lemma ResetKeepsInbox(db: Db, clock: int, t: TaskId, id: AttemptId, row: AttemptRow, db': Db, now: int)
    requires InboxOk(db, clock) && clock < now && Resettable(db, t, id, row) && Rebinds(db, t, id, db'.inbox, now)
    requires t in db'.tasks && db'.tasks == db.tasks[t := db'.tasks[t]] && db'.tasks[t].current == id
    requires db'.attempts == db.attempts[id := row]
    requires RunningOf(db', t) != {} ==> OpenPr(row)
    requires |RunningOf(db', t)| <= BATCH_SIZE
    requires forall e, f | e in RunningOf(db', t) && f in RunningOf(db', t) && e != f :: Together(db'.inbox[e], db'.inbox[f])
    ensures InboxOk(db', now) && InboxAdvances(db, clock, db')
  {
    hide Resettable, OpenPr, Together;
    forall e | e in db'.inbox ensures EventOk(db', db'.inbox[e], now) {
      assert EventOk(db, db.inbox[e], clock) && BoundTo(db.inbox[e], db'.inbox[e], t, id, now);
      assert id !in db.attempts && RunningOf(db', t) == RunningOf(db', t) by { ResettableIsNew(db, t, id, row); }
      if db'.inbox[e].status == EventRunning && db'.inbox[e].task == Some(t) {
        assert e in RunningOf(db', t);
      }
    }
    forall e, f | e in db'.inbox && f in db'.inbox && e != f ensures Together(db'.inbox[e], db'.inbox[f]) {
      RebindsTogether(db, t, id, db', now, e, f);
    }
    forall u: TaskId ensures |RunningOf(db', u)| <= BATCH_SIZE {
      if u != t {
        assert RunningOf(db', u) <= RunningOf(db, u) by { hide EventOk; }
        SubsetIsSmaller(RunningOf(db', u), RunningOf(db, u));
      }
    }
    hide InboxAdvances;
    ResetAdvancesInbox(db, clock, t, id, row, db', now);
  }

  lemma ResetAdvancesInbox(db: Db, clock: int, t: TaskId, id: AttemptId, row: AttemptRow, db': Db, now: int)
    requires clock < now && Resettable(db, t, id, row) && Rebinds(db, t, id, db'.inbox, now)
    ensures InboxAdvances(db, clock, db')
  {
    hide Resettable;
    ResettableIsNew(db, t, id, row);
    forall e | e in db.inbox
      ensures EventAdvances(db.inbox[e], db'.inbox[e], clock)
      ensures NewlyBound(db, db'.inbox[e]) || (db.inbox[e].status == EventRunning && db'.inbox[e].attempt == db.inbox[e].attempt)
    {
      assert BoundTo(db.inbox[e], db'.inbox[e], t, id, now);
    }
  }

  lemma ResettableIsNew(db: Db, t: TaskId, id: AttemptId, row: AttemptRow)
    requires Resettable(db, t, id, row)
    ensures id !in db.attempts
  {
  }

  lemma RebindsTogether(db: Db, t: TaskId, id: AttemptId, db': Db, now: int, e: ForgeEventId, f: ForgeEventId)
    requires Rebinds(db, t, id, db'.inbox, now) && e in db.inbox && f in db.inbox && e != f && Together(db.inbox[e], db.inbox[f])
    requires forall e, f | e in RunningOf(db', t) && f in RunningOf(db', t) && e != f :: Together(db'.inbox[e], db'.inbox[f])
    ensures Together(db'.inbox[e], db'.inbox[f])
  {
    assert BoundTo(db.inbox[e], db'.inbox[e], t, id, now) && BoundTo(db.inbox[f], db'.inbox[f], t, id, now);
    if db'.inbox[e].status == EventRunning && db'.inbox[f].status == EventRunning && db'.inbox[e].task == db'.inbox[f].task == Some(t) {
      assert e in RunningOf(db', t) && f in RunningOf(db', t);
    }
  }

  lemma ResetKeeps(db: Db, clock: int, t: TaskId, id: AttemptId, row: AttemptRow, inbox: map<ForgeEventId, ForgeEvent>, key: Key, now: int)
    requires Inv(db, clock) && clock < now && Resettable(db, t, id, row) && Rebinds(db, t, id, inbox, now)
    requires key != "" ==> (t, key) !in db.retryIntents
    requires var running := RunningOf(db.(inbox := inbox), t);
             && (running != {} ==> OpenPr(row)) && |running| <= BATCH_SIZE
             && (forall e, f | e in running && f in running && e != f :: Together(inbox[e], inbox[f]))
    ensures var db' := Reset(db, t, id, row, false, inbox, key); Inv(db', now) && Advances(db, clock, db')
  {
    hide TaskOk, AttemptOk, Siblings, EventOk, Together, Rebinds, RowsAdvance, InboxAdvances;
    var db' := Reset(db, t, id, row, false, inbox, key);
    assert RunningOf(db', t) == RunningOf(db.(inbox := inbox), t);
    ResetKeepsRows(db, t, id, row, db');
    ResetKeepsInbox(db, clock, t, id, row, db', now);
    assert OutboxOk(db') && IntentsOk(db') && OutboxAdvances(db, db') && IntentsAdvance(db, db') by {
      hide TasksOk, AttemptsOk, InboxOk;
    }
  }

  lemma RunningIsBound(db: Db, clock: int, t: TaskId)
    requires InboxOk(db, clock) && t in db.tasks
    ensures RunningFor(db, t, db.tasks[t].current) == RunningOf(db, t)
    ensures RunningOf(db, t) != {} ==> db.tasks[t].current in db.attempts && OpenPr(db.attempts[db.tasks[t].current])
    ensures forall e, f | e in RunningOf(db, t) && f in RunningOf(db, t) && e != f :: Together(db.inbox[e], db.inbox[f])
    ensures |RunningOf(db, t)| <= BATCH_SIZE
  {
    hide Together, OpenPr;
    forall e | e in RunningOf(db, t)
      ensures e in RunningFor(db, t, db.tasks[t].current) && db.tasks[t].current in db.attempts && OpenPr(db.attempts[db.tasks[t].current])
    {
      assert EventOk(db, db.inbox[e], clock);
    }
  }

  lemma RetryKeeps(db: Db, clock: int, op: Op, now: int)
    requires Inv(db, clock) && clock < now && op.Retry?
    ensures Inv(Step(db, op, now), now) && Advances(db, clock, Step(db, op, now))
  {
    hide Inv, Advances, RetryTaskOnce;
    var tx := RetryTaskOnce(db, op.task, op.key, op.plan, op.newAttempt, now);
    if tx.Ok? && tx.value.inserted {
      RetryInserts(db, clock, op.task, op.key, op.plan, op.newAttempt, now);
    } else {
      RetryRefusesOrReplays(db, op.task, op.key, op.plan, op.newAttempt, now);
      LaterClock(db, clock, now);
      AdvancesIsReflexive(db, clock);
    }
  }

  lemma RetryRefusesOrReplays(db: Db, t: TaskId, key: Key, plan: Option<Plan>, newId: AttemptId, now: int)
    ensures var tx := RetryTaskOnce(db, t, key, plan, newId, now); tx.Ok? && !tx.value.inserted ==> tx.value.db == db
  {
    hide Retryable, NextNumber, Reset, Rebound;
  }

  /** A planned or unplanned retry resets the task; running events move with it. */
  lemma RetryInserts(db: Db, clock: int, t: TaskId, key: Key, plan: Option<Plan>, newId: AttemptId, now: int)
    requires Inv(db, clock) && clock < now
    requires var tx := RetryTaskOnce(db, t, key, plan, newId, now); tx.Ok? && tx.value.inserted
    ensures var db' := RetryTaskOnce(db, t, key, plan, newId, now).value.db; Inv(db', now) && Advances(db, clock, db')
  {
    hide Advances, Reset, Rebinds, EventOk, Together, Siblings, AttemptOk, LogFrom, Numbered, Rebound, OpenPr;
    NextNumberIsNext(db, t);
    RunningIsBound(db, clock, t);
    var current := db.tasks[t].current;
    var carried := CarriedOver(db, t).value;
    var id := if plan.Some? then plan.value.attempt else newId;
    var row := QueuedAttempt(t, NextNumber(db, t), carried.prompt, carried.base, carried.branch, if plan.Some? then plan.value.manifest else None, carried.pr);
    assert Resettable(db, t, id, row);
    var inbox := Rebound(db.inbox, t, current, id, now);
    RetryRebinds(db, clock, t, id, now);
    hide Inv, Resettable;
    if RunningOf(db, t) != {} {
      assert OpenPr(row) by { OpenIsCopied(row, db.attempts[current]); }
    }
    ResetKeeps(db, clock, t, id, row, inbox, key, now);
  }

  lemma OpenIsCopied(x: AttemptRow, y: AttemptRow)
    requires x.pr == y.pr
    ensures OpenPr(x) == OpenPr(y)
  {
  }

  lemma RetryRebinds(db: Db, clock: int, t: TaskId, id: AttemptId, now: int)
    requires InboxOk(db, clock) && t in db.tasks
    ensures var inbox := Rebound(db.inbox, t, db.tasks[t].current, id, now);
            && Rebinds(db, t, id, inbox, now)
            && RunningOf(db.(inbox := inbox), t) == RunningOf(db, t)
            && forall e, f | e in RunningOf(db, t) && f in RunningOf(db, t) && e != f :: Together(inbox[e], inbox[f])
  {
    hide OpenPr;
    var inbox := Rebound(db.inbox, t, db.tasks[t].current, id, now);
    forall e | e in db.inbox ensures BoundTo(db.inbox[e], inbox[e], t, id, now) {
      assert EventOk(db, db.inbox[e], clock);
    }
    forall e, f | e in RunningOf(db, t) && f in RunningOf(db, t) && e != f ensures Together(inbox[e], inbox[f]) {
      assert Together(db.inbox[e], db.inbox[f]);
    }
  }

  // -------------------------------------------------------------------- follow-ups

  lemma FollowUpKeeps(db: Db, clock: int, op: Op, now: int)
    requires Inv(db, clock) && clock < now && op.FollowUp?
    ensures Inv(Step(db, op, now), now) && Advances(db, clock, Step(db, op, now))
  {
    hide Inv, Advances, StartFollowUp;
    var tx := StartFollowUp(db, op.ids, op.followUp, now);
    if tx.Ok? && tx.value.inserted {
      FollowUpInserts(db, clock, op.ids, op.followUp, now);
    } else {
      FollowUpRefusesOrReplays(db, op.ids, op.followUp, now);
      LaterClock(db, clock, now);
      AdvancesIsReflexive(db, clock);
    }
  }

  lemma FollowUpRefusesOrReplays(db: Db, ids: seq<ForgeEventId>, plan: Plan, now: int)
    ensures var tx := StartFollowUp(db, ids, plan, now); tx.Ok? && !tx.value.inserted ==> tx.value.db == db
  {
    hide ValidateBatch, FollowUpTarget, NextNumber, Reset;
  }

  function SetOf<T(==)>(s: seq<T>): set<T> {
    set x | x in s
  }

  lemma {:induction false} SetOfIsSmaller<T>(s: seq<T>)
    ensures |SetOf(s)| <= |s|
  {
    if s != [] {
      SetOfIsSmaller(s[1..]);
      assert SetOf(s) == {s[0]} + SetOf(s[1..]);
    }
  }

  /** A batch that is not running yet is pending, unassociated, due and of one commit. */
  lemma FreshBatch(db: Db, ids: seq<ForgeEventId>, t: TaskId, now: int)
    requires ids != [] && Present(db, ids) && ValidateBatch(db, ids, t, now) == Ok(None)
    ensures OneBatch(db, ids)
    ensures forall id | id in ids :: db.inbox[id].status == EventPending && Unassociated(db.inbox[id]) && Due(db.inbox[id], now)
  {
    hide OneBatch;
    assert db.inbox[ids[0]].status != EventRunning;
  }

  lemma FollowUpInserts(db: Db, clock: int, ids: seq<ForgeEventId>, plan: Plan, now: int)
    requires Inv(db, clock) && clock < now
    requires var tx := StartFollowUp(db, ids, plan, now); tx.Ok? && tx.value.inserted
    ensures var db' := StartFollowUp(db, ids, plan, now).value.db; Inv(db', now) && Advances(db, clock, db')
  {
    hide Inv, Advances, Reset, Rebinds, LogFrom, Numbered, Together, ValidateBatch, OneBatch, NextNumber, Blank;
    var t := plan.task;
    var r := db.tasks[t];
    ViewIsGood(db, clock, t);
    FollowUpNumber(db, clock, t);
    FreshBatch(db, ids, t, now);
    var pr := FollowUpTarget(db, t, plan).value;
    var row := QueuedAttempt(t, plan.number, plan.prompt, plan.baseBranch, plan.taskBranch, plan.manifest, Some(pr.(state := Open)));
    var inbox := map e | e in db.inbox :: if e in ids then AssociatedRow(db.inbox[e], t, plan.attempt, now) else db.inbox[e];
    assert Resettable(db, t, plan.attempt, row);
    FollowUpRebinds(db, ids, t, plan.attempt, now);
    hide Resettable, FollowUpTarget;
    ResetKeeps(db, clock, t, plan.attempt, row, inbox, "", now);
  }

  lemma FollowUpNumber(db: Db, clock: int, t: TaskId)
    requires Inv(db, clock) && t in db.tasks && TaskOk(db, t)
    ensures NextNumber(db, t) == db.attempts[db.tasks[t].current].number + 1
  {
    NextNumberIsNext(db, t);
  }

  lemma FollowUpRebinds(db: Db, ids: seq<ForgeEventId>, t: TaskId, id: AttemptId, now: int)
    requires ValidIds(ids) && Present(db, ids) && OneBatch(db, ids) && RunningOf(db, t) == {}
    requires forall e | e in ids :: db.inbox[e].status == EventPending
    ensures var inbox := map e | e in db.inbox :: if e in ids then AssociatedRow(db.inbox[e], t, id, now) else db.inbox[e];
            var running := RunningOf(db.(inbox := inbox), t);
            && Rebinds(db, t, id, inbox, now) && running == SetOf(ids) && |running| <= BATCH_SIZE
            && forall e, f | e in running && f in running && e != f :: Together(inbox[e], inbox[f])
  {
    var inbox := map e | e in db.inbox :: if e in ids then AssociatedRow(db.inbox[e], t, id, now) else db.inbox[e];
    forall e | e in db.inbox ensures BoundTo(db.inbox[e], inbox[e], t, id, now) {
      assert e !in RunningOf(db, t);
    }
    var running := RunningOf(db.(inbox := inbox), t);
    forall e | e in running ensures e in ids {
      assert e !in RunningOf(db, t);
    }
    assert running == SetOf(ids);
    SetOfIsSmaller(ids);
    forall e, f | e in ids && f in ids && e != f ensures Together(inbox[e], inbox[f]) {
      var i, j :| 0 <= i < |ids| && ids[i] == e && 0 <= j < |ids| && ids[j] == f;
      assert i > 0 ==> SameBatch(db.inbox[ids[0]], db.inbox[ids[i]]);
      assert j > 0 ==> SameBatch(db.inbox[ids[0]], db.inbox[ids[j]]);
    }
  }
}
