/** What every reachable store state satisfies, across tables, and what every
    later state keeps of an earlier one. */
module StoreInvariant {
  import opened Wrappers
  import opened TaskState
  import opened Rows
  import opened Transactions
  import opened StoreSpec
  import opened ForgeInbox

  // ---------------------------------------------------------------- audit log

  /** What the audit log of a task says so far. */
  datatype Cursor = Cursor(state: State, attempt: AttemptId, number: nat)

  /** One audit event: an observation, a legal edge on the same attempt, or a reset
      of a finished attempt onto a new one. Anything else is not a legal log. */
  function StepLog(c: Option<Cursor>, e: AuditEvent): Option<Cursor> {
    if c.None? || e.from != c.value.state then None
    else if e.from == e.to && e.attempt == c.value.attempt then c
    else if CanTransition(e.from, e.to) && e.attempt == c.value.attempt then Some(c.value.(state := e.to))
    else if (CanRetry(e.from, e.to) || CanFollowUp(e.from, e.to)) && e.attempt != c.value.attempt then Some(Cursor(e.to, e.attempt, c.value.number + 1))
    else None
  }

  /** Replaying a log from RECEIVED on the first attempt. */
  function ReplayLog(log: seq<AuditEvent>, first: AttemptId): Option<Cursor> {
    if log == [] then Some(Cursor(Received, first, 1))
    else StepLog(ReplayLog(log[..|log| - 1], first), log[|log| - 1])
  }

  /** The number of events that are not observations. */
  function Edges(log: seq<AuditEvent>): nat {
    if log == [] then 0
    else Edges(log[..|log| - 1]) + if log[|log| - 1].from == log[|log| - 1].to then 0 else 1
  }

  /** Every attempt adds at most 13 edges: one reset and a climb of the lifecycle. */
  lemma {:induction false} EdgesAreBounded(log: seq<AuditEvent>, first: AttemptId)
    requires ReplayLog(log, first).Some?
    ensures var c := ReplayLog(log, first).value;
            c.number >= 1 && Edges(log) <= 13 * (c.number - 1) + Rank(c.state) <= 13 * c.number
  {
    if log != [] {
      EdgesAreBounded(log[..|log| - 1], first);
      EdgesClimb(log[|log| - 1].from, log[|log| - 1].to);
    }
  }

  lemma ReplayAppend(log: seq<AuditEvent>, e: AuditEvent, first: AttemptId)
    ensures ReplayLog(log + [e], first) == StepLog(ReplayLog(log, first), e)
  {
    assert (log + [e])[..|log|] == log;
  }

  // ----------------------------------------------------------- tasks and attempts

  /** The log replays to the task's present state, attempt and attempt number. */
  ghost predicate LogFrom(db: Db, t: TaskId, first: AttemptId) {
    && Owns(db, t, first) && db.attempts[first].number == 1
    && t in db.tasks && db.tasks[t].current in db.attempts
    && ReplayLog(db.tasks[t].log, first) == Some(Cursor(db.tasks[t].state, db.tasks[t].current, db.attempts[db.tasks[t].current].number))
  }

  ghost predicate NumberOf(db: Db, t: TaskId, k: nat, a: AttemptId) {
    Owns(db, t, a) && db.attempts[a].number == k
  }

  ghost predicate Numbered(db: Db, t: TaskId, k: nat) {
    exists a :: NumberOf(db, t, k, a)
  }

  ghost predicate TaskOk(db: Db, t: TaskId)
    requires t in db.tasks
  {
    var r := db.tasks[t];
    && Owns(db, t, r.current) && db.attempts[r.current].state == r.state
    && (Terminal(r.state) ==> !r.cancel)
    && (forall k: nat {:trigger Numbered(db, t, k)} | 1 <= k <= db.attempts[r.current].number :: Numbered(db, t, k))
    && (exists first :: LogFrom(db, t, first))
  }

  ghost predicate Superseded(db: Db, a: AttemptId) {
    && a in db.attempts && db.attempts[a].task in db.tasks
    && db.tasks[db.attempts[a].task].current != a
  }

  ghost predicate RowOk(row: AttemptRow) {
    && (row.pr.Some? ==> row.pr.value.number > 0)
    && (PushedGit(row) ==> OpenPr(row))
    && (PullRequestOpen(row.state) ==> PullRequestGate(row))
    && OneRunning(row.runs)
  }

  /** Superseded attempts have ended, their logs are drained and their events processed. */
  ghost predicate Drained(db: Db, a: AttemptId)
    requires a in db.attempts
  {
    var row := db.attempts[a];
    && (row.state == Failed || PullRequestOpen(row.state))
    && row.logsExhausted
    && !HasPendingWorkerEvents(db, row.task, a)
  }

  ghost predicate AttemptOk(db: Db, a: AttemptId)
    requires a in db.attempts
  {
    var row := db.attempts[a];
    && row.task in db.tasks && db.tasks[row.task].current in db.attempts
    && 1 <= row.number <= db.attempts[db.tasks[row.task].current].number
    && RowOk(row)
    && (Superseded(db, a) ==> Drained(db, a))
  }

  ghost predicate ReportedPr(row: AttemptRow) {
    row.pr.Some? && row.pr.value.state == Reported
  }

  /** What two attempts of one task owe each other: different numbers, one pull
      request per pair of branches, and no report beside an open pull request. */
  ghost predicate Siblings(db: Db, a: AttemptId, b: AttemptId)
    requires a in db.attempts && b in db.attempts
  {
    var x, y := db.attempts[a], db.attempts[b];
    x.task == y.task && a != b ==>
      && x.number != y.number
      && (OpenPr(x) && OpenPr(y) && SameBranches(x.pr.value, y.pr.value) ==> x.pr.value.number == y.pr.value.number)
      && (IsCurrent(db, a) && ReportedPr(x) && OpenPr(y) ==> !SameBranches(x.pr.value, y.pr.value))
  }

  ghost predicate OutboxOk(db: Db) {
    forall w | w in db.outbox :: Owns(db, db.outbox[w].task, db.outbox[w].attempt)
  }

  ghost predicate IntentsOk(db: Db) {
    && (forall k | k in db.createIntents :: db.createIntents[k] in db.tasks)
    && (forall k | k in db.retryIntents :: Owns(db, k.0, db.retryIntents[k]))
  }

  ghost predicate TasksOk(db: Db) {
    forall t {:trigger TaskOk(db, t)} | t in db.tasks :: TaskOk(db, t)
  }

  ghost predicate AttemptsOk(db: Db) {
    && (forall a {:trigger AttemptOk(db, a)} | a in db.attempts :: AttemptOk(db, a))
    && (forall a, b {:trigger Siblings(db, a, b)} | a in db.attempts && b in db.attempts :: Siblings(db, a, b))
  }

  // --------------------------------------------------------------------- inbox

  ghost predicate EventOk(db: Db, e: ForgeEvent, clock: int) {
    && e.updatedAt <= clock
    && (e.status == EventPending ==> Unassociated(e))
    && (e.status == EventRunning ==>
          && e.task.Some? && e.task.value in db.tasks
          && e.attempt == Some(db.tasks[e.task.value].current)
          && e.attempt.value in db.attempts && OpenPr(db.attempts[e.attempt.value]))
  }

  /** Two running events of one task are reviews of the same commit of the same pull request. */
  ghost predicate Together(e: ForgeEvent, f: ForgeEvent) {
    e.status == EventRunning && f.status == EventRunning && e.task == f.task ==> e.kind == ReviewComment && SameBatch(e, f)
  }

  ghost predicate InboxOk(db: Db, clock: int) {
    && (forall e {:trigger EventOk(db, db.inbox[e], clock)} | e in db.inbox :: EventOk(db, db.inbox[e], clock))
    && (forall e, f {:trigger Together(db.inbox[e], db.inbox[f])} | e in db.inbox && f in db.inbox && e != f :: Together(db.inbox[e], db.inbox[f]))
    && (forall t: TaskId {:trigger RunningOf(db, t)} :: |RunningOf(db, t)| <= BATCH_SIZE)
  }

  ghost predicate Inv(db: Db, clock: int) {
    TasksOk(db) && AttemptsOk(db) && OutboxOk(db) && IntentsOk(db) && InboxOk(db, clock)
  }

  // -------------------------------------------------- what later states keep

  /** Cancellation owns the outcome, CANCELLED is final, and the log only grows. */
  ghost predicate TaskAdvances(r: TaskRow, s: TaskRow) {
    && r.log <= s.log
    && (r.cancel ==> s.current == r.current && (s.state == Cancelled || (s.cancel && s.state == r.state)))
    && (r.state == Cancelled ==> s.current == r.current && s.state == Cancelled)
  }

  /** Commands are only added, and what a finished command ended with is final. */
  ghost predicate CommandsAdvance(x: seq<ValidationRun>, y: seq<ValidationRun>) {
    && |x| <= |y|
    && forall i | 0 <= i < |x| ::
         && y[i].name == x[i].name && y[i].startEvent == x[i].startEvent
         && (x[i].state != RunRunning ==> y[i].state == x[i].state && y[i].exitCode == x[i].exitCode && y[i].resultEvent == x[i].resultEvent)
  }

  /** Pushed evidence is final, open pull requests keep their identity, drained logs
      and saved snapshots stay. */
  ghost predicate AttemptAdvances(x: AttemptRow, y: AttemptRow) {
    && x.task == y.task && x.number == y.number && x.prompt == y.prompt && x.baseBranch == y.baseBranch && x.taskBranch == y.taskBranch
    && (x.manifest.Some? ==> y.manifest == x.manifest)
    && (x.logsExhausted ==> y.logsExhausted)
    && (PushedGit(x) ==> y.git == x.git && y.pr == x.pr)
    && (OpenPr(x) ==> OpenPr(y) && y.pr.value.number == x.pr.value.number && SameBranches(x.pr.value, y.pr.value))
    && CommandsAdvance(x.runs, y.runs)
  }

  ghost predicate FrozenAs(x: AttemptRow, y: AttemptRow) {
    y.state == x.state && y.git == x.git && y.pr == x.pr
  }

  /** Whatever changed was stamped after `clock`; handled and failed are final. */
  ghost predicate EventAdvances(e: ForgeEvent, f: ForgeEvent, clock: int) {
    && f.kind == e.kind && f.at == e.at
    && (f == e || f.updatedAt > clock)
    && (e.status == EventFailed ==> f == e)
    && (e.status == EventHandled ==> f.status == EventHandled && f.task == e.task && f.attempt == e.attempt && (e.handledAt.Some? ==> f.handledAt == e.handledAt))
    && (e.status == EventRunning ==> f.status != EventPending && f.task == e.task)
  }

  ghost predicate RowsAdvance(db: Db, db': Db) {
    && (forall t {:trigger t in db.tasks} {:trigger t in db'.tasks} | t in db.tasks :: t in db'.tasks && TaskAdvances(db.tasks[t], db'.tasks[t]))
    && (forall a {:trigger a in db.attempts} {:trigger a in db'.attempts} | a in db.attempts :: a in db'.attempts && AttemptAdvances(db.attempts[a], db'.attempts[a]))
    && (forall a {:trigger Superseded(db, a)} {:trigger Superseded(db', a)} | a in db.attempts && Superseded(db, a) ::
          a in db'.attempts && Superseded(db', a) && FrozenAs(db.attempts[a], db'.attempts[a]))
  }

  /** Events are bound, and bound again, only to attempts that are new. */
  ghost predicate NewlyBound(db: Db, f: ForgeEvent) {
    f.status == EventRunning ==> f.attempt.Some? && f.attempt.value !in db.attempts
  }

  ghost predicate InboxAdvances(db: Db, clock: int, db': Db) {
    && (forall e | e in db.inbox ::
          && e in db'.inbox && EventAdvances(db.inbox[e], db'.inbox[e], clock)
          && (NewlyBound(db, db'.inbox[e]) || (db.inbox[e].status == EventRunning && db'.inbox[e].attempt == db.inbox[e].attempt)))
    && (forall e | e in db'.inbox && e !in db.inbox :: db'.inbox[e].updatedAt > clock && NewlyBound(db, db'.inbox[e]))
  }

  ghost predicate OutboxAdvances(db: Db, db': Db) {
    && (forall w | w in db.outbox :: w in db'.outbox && db'.outbox[w].task == db.outbox[w].task && db'.outbox[w].attempt == db.outbox[w].attempt
                                     && (db.outbox[w].processed ==> db'.outbox[w].processed))
    && (forall w | w in db'.outbox && w !in db.outbox :: !Superseded(db, db'.outbox[w].attempt))
  }

  ghost predicate IntentsAdvance(db: Db, db': Db) {
    && (forall k | k in db.createIntents :: k in db'.createIntents && db'.createIntents[k] == db.createIntents[k])
    && (forall k | k in db.retryIntents :: k in db'.retryIntents && db'.retryIntents[k] == db.retryIntents[k])
  }

  ghost predicate Advances(db: Db, clock: int, db': Db) {
    RowsAdvance(db, db') && InboxAdvances(db, clock, db') && OutboxAdvances(db, db') && IntentsAdvance(db, db')
  }

  lemma AdvancesIsReflexive(db: Db, clock: int)
    ensures Advances(db, clock, db)
  {
  }

  lemma AttemptAdvancesIsReflexive(x: AttemptRow)
    ensures AttemptAdvances(x, x)
  {
  }

  lemma AttemptAdvancesIsTransitive(x: AttemptRow, y: AttemptRow, z: AttemptRow)
    requires AttemptAdvances(x, y) && AttemptAdvances(y, z)
    ensures AttemptAdvances(x, z)
  {
  }

  lemma RowsAdvanceIsTransitive(db: Db, db': Db, db'': Db)
    requires RowsAdvance(db, db') && RowsAdvance(db', db'')
    ensures RowsAdvance(db, db'')
  {
    hide Superseded, AttemptAdvances;
    forall a | a in db.attempts ensures a in db''.attempts && AttemptAdvances(db.attempts[a], db''.attempts[a]) {
      AttemptAdvancesIsTransitive(db.attempts[a], db'.attempts[a], db''.attempts[a]);
    }
  }

  lemma AdvancesIsTransitive(db: Db, clock: int, db': Db, clock': int, db'': Db)
    requires clock <= clock' && Advances(db, clock, db') && Advances(db', clock', db'')
    ensures Advances(db, clock, db'')
  {
    hide RowsAdvance, InboxAdvances, OutboxAdvances;
    RowsAdvanceIsTransitive(db, db', db'');
    OutboxAdvancesIsTransitive(db, db', db'');
    AttemptsStay(db, db');
    InboxAdvancesIsTransitive(db, clock, db', clock', db'');
  }

  lemma OutboxAdvancesIsTransitive(db: Db, db': Db, db'': Db)
    requires RowsAdvance(db, db') && OutboxAdvances(db, db') && OutboxAdvances(db', db'')
    ensures OutboxAdvances(db, db'')
  {
    hide TaskAdvances, AttemptAdvances, FrozenAs;
    forall w | w in db''.outbox && w !in db.outbox ensures !Superseded(db, db''.outbox[w].attempt) {
      var a := db''.outbox[w].attempt;
      assert Superseded(db, a) ==> Superseded(db', a);
    }
  }

  lemma AttemptsStay(db: Db, db': Db)
    requires RowsAdvance(db, db')
    ensures db.attempts.Keys <= db'.attempts.Keys
  {
    hide TaskAdvances, AttemptAdvances, FrozenAs, Superseded;
  }

  lemma InboxAdvancesIsTransitive(db: Db, clock: int, db': Db, clock': int, db'': Db)
    requires clock <= clock' && db.attempts.Keys <= db'.attempts.Keys
    requires InboxAdvances(db, clock, db') && InboxAdvances(db', clock', db'')
    ensures InboxAdvances(db, clock, db'')
  {
  }

  // ------------------------------------------------------------------- frames

  /** No attempt goes away or changes its task or number. */
  ghost predicate SameIdentities(db: Db, db': Db) {
    forall a {:trigger a in db.attempts} {:trigger a in db'.attempts} | a in db.attempts ::
      a in db'.attempts && db'.attempts[a].task == db.attempts[a].task && db'.attempts[a].number == db.attempts[a].number
  }

  lemma NumberedFrame(db: Db, db': Db, t: TaskId, k: nat)
    requires SameIdentities(db, db') && Numbered(db, t, k)
    ensures Numbered(db', t, k)
  {
    var a :| NumberOf(db, t, k, a);
    assert NumberOf(db', t, k, a);
  }

  /** A task whose own row and current attempt's state did not change. */
  lemma TaskFrame(db: Db, db': Db, t: TaskId)
    requires t in db.tasks && TaskOk(db, t) && SameIdentities(db, db')
    requires t in db'.tasks && db'.tasks[t] == db.tasks[t]
    requires db'.attempts[db.tasks[t].current].state == db.attempts[db.tasks[t].current].state
    ensures TaskOk(db', t)
  {
    hide ReplayLog, Numbered, NumberOf, Terminal;
    forall k: nat | 1 <= k <= db.attempts[db.tasks[t].current].number ensures Numbered(db', t, k) {
      NumberedFrame(db, db', t, k);
    }
    var first :| LogFrom(db, t, first);
    assert LogFrom(db', t, first);
  }

  /** Inbox invariants depend only on the current attempts and their open pull requests. */
  lemma InboxFrame(db: Db, clock: int, db': Db)
    requires InboxOk(db, clock) && db'.inbox == db.inbox
    requires forall t | t in db.tasks :: t in db'.tasks && db'.tasks[t].current == db.tasks[t].current
    requires forall a | a in db.attempts && OpenPr(db.attempts[a]) :: a in db'.attempts && OpenPr(db'.attempts[a])
    ensures InboxOk(db', clock)
  {
    hide OpenPr, Together;
    forall t: TaskId ensures |RunningOf(db', t)| <= BATCH_SIZE {
      assert RunningOf(db', t) == RunningOf(db, t);
    }
    forall e | e in db'.inbox ensures EventOk(db', db'.inbox[e], clock) {
      assert EventOk(db, db.inbox[e], clock);
    }
    forall e, f | e in db'.inbox && f in db'.inbox && e != f ensures Together(db'.inbox[e], db'.inbox[f]) {
      assert Together(db.inbox[e], db.inbox[f]);
    }
  }

  // ---------------------------------------------- changes to one task's own rows

  ghost predicate LogExtends(r: TaskRow, s: TaskRow) {
    || (s.log == r.log && s.state == r.state)
    || (s.log == r.log + [AuditEvent(r.current, r.state, s.state)] && (s.state == r.state || CanTransition(r.state, s.state)))
  }

  /** A change to a task and its current attempt that leaves the evidence alone. */
  ghost predicate ViewStep(v: View, w: View) {
    && w.task.current == v.task.current && LogExtends(v.task, w.task)
    && w.task.state == w.attempt.state
    && (Terminal(w.task.state) ==> !w.task.cancel)
    && (v.task.cancel ==> w.task.state == Cancelled || (w.task.cancel && w.task.state == v.task.state))
    && (v.task.state == Cancelled ==> w.task.state == Cancelled)
    && w.attempt == v.attempt.(state := w.attempt.state, validation := w.attempt.validation, runs := w.attempt.runs)
    && CommandsAdvance(v.attempt.runs, w.attempt.runs)
    && RowOk(w.attempt)
  }

  lemma PutKeepsTask(db: Db, t: TaskId, w: View)
    requires t in db.tasks && TaskOk(db, t) && ViewStep(ViewOf(db, t), w)
    ensures TaskOk(Put(db, t, w), t)
  {
    hide Numbered, NumberOf, Terminal, RowOk, CanTransition, ReplayLog;
    var db' := Put(db, t, w);
    assert SameIdentities(db, db');
    forall k: nat | 1 <= k <= w.attempt.number ensures Numbered(db', t, k) {
      NumberedFrame(db, db', t, k);
    }
    var first :| LogFrom(db, t, first);
    ReplayAppend(db.tasks[t].log, AuditEvent(db.tasks[t].current, db.tasks[t].state, w.task.state), first);
    assert LogFrom(db', t, first);
  }

  lemma PutKeepsAttempt(db: Db, t: TaskId, w: View, a: AttemptId)
    requires t in db.tasks && a in db.attempts && TaskOk(db, t) && AttemptOk(db, a) && ViewStep(ViewOf(db, t), w)
    ensures AttemptOk(Put(db, t, w), a)
  {
    hide LogFrom, Numbered, Terminal, RowOk, LogExtends;
    var db' := Put(db, t, w);
    assert Superseded(db', a) == Superseded(db, a);
    assert HasPendingWorkerEvents(db', db.attempts[a].task, a) == HasPendingWorkerEvents(db, db.attempts[a].task, a);
  }

  lemma PutKeepsRows(db: Db, t: TaskId, w: View)
    requires TasksOk(db) && AttemptsOk(db) && t in db.tasks && TaskOk(db, t) && ViewStep(ViewOf(db, t), w)
    ensures TasksOk(Put(db, t, w)) && AttemptsOk(Put(db, t, w))
  {
    var db' := Put(db, t, w);
    forall u | u in db'.tasks ensures TaskOk(db', u) {
      hide ViewStep;
      PutKeepsTask(db, t, w);
      assert TaskOk(db, u);
      if u != t {
        TaskFrameOfPut(db, t, w, u);
      }
    }
    forall a | a in db'.attempts ensures AttemptOk(db', a) {
      hide ViewStep, TaskOk;
      assert AttemptOk(db, a);
      PutKeepsAttempt(db, t, w, a);
    }
    forall a, b | a in db'.attempts && b in db'.attempts ensures Siblings(db', a, b) {
      assert Siblings(db, a, b);
    }
  }

  lemma TaskFrameOfPut(db: Db, t: TaskId, w: View, u: TaskId)
    requires t in db.tasks && u in db.tasks && u != t && TaskOk(db, t) && TaskOk(db, u) && ViewStep(ViewOf(db, t), w)
    ensures TaskOk(Put(db, t, w), u)
  {
    hide LogFrom, Numbered, Terminal, RowOk, LogExtends;
    TaskFrame(db, Put(db, t, w), u);
  }

  lemma SameInboxAdvances(db: Db, clock: int, db': Db)
    requires db'.inbox == db.inbox
    ensures InboxAdvances(db, clock, db')
  {
  }

  lemma PutKeeps(db: Db, clock: int, t: TaskId, w: View)
    requires Inv(db, clock) && t in db.tasks && TaskOk(db, t) && ViewStep(ViewOf(db, t), w)
    ensures Inv(Put(db, t, w), clock) && Advances(db, clock, Put(db, t, w))
  {
    hide LogFrom, Numbered, Terminal, RowOk, EventOk, Together, Siblings, AttemptOk, InboxAdvances;
    var db' := Put(db, t, w);
    PutKeepsRows(db, t, w);
    SameInboxAdvances(db, clock, db');
    assert OutboxOk(db') && IntentsOk(db') by {
      hide TasksOk, AttemptsOk;
    }
    InboxFrame(db, clock, db');
    hide TasksOk, AttemptsOk, OutboxOk, IntentsOk, RowsAdvance;
    PutAdvances(db, t, w);
  }

  lemma PutAdvances(db: Db, t: TaskId, w: View)
    requires t in db.tasks && TaskOk(db, t) && ViewStep(ViewOf(db, t), w)
    ensures RowsAdvance(db, Put(db, t, w))
  {
    hide LogFrom, Numbered, Terminal, CanTransition, CommandsAdvance, RowOk;
    forall a | a in db.attempts ensures AttemptAdvances(db.attempts[a], db.attempts[a]) {
      AttemptAdvancesIsReflexive(db.attempts[a]);
    }
  }

  lemma CurrentIsOwn(db: Db, t: TaskId)
    requires TasksOk(db) && t in db.tasks
    ensures TaskOk(db, t) && Owns(db, t, db.tasks[t].current)
    ensures db.attempts[db.tasks[t].current].state == db.tasks[t].state
  {
    assert TaskOk(db, t);
  }

  // ------------------------------------------------ changes to one attempt's row

  /** A change to an attempt row that leaves its identity and state alone. */
  ghost predicate AttemptStep(db: Db, a: AttemptId, row: AttemptRow)
    requires a in db.attempts
  {
    var was := db.attempts[a];
    && AttemptAdvances(was, row) && row.state == was.state && RowOk(row)
    && (Superseded(db, a) ==> FrozenAs(was, row))
    // A pull request opens only out of its own report, and is reported only when
    // no other attempt has one open on the same branches.
    && (OpenPr(row) && !OpenPr(was) ==>
          ReportedPr(was) && row.pr.value.number == was.pr.value.number && SameBranches(row.pr.value, was.pr.value))
    && (ReportedPr(row) ==>
          || (ReportedPr(was) && SameBranches(row.pr.value, was.pr.value))
          || PriorOpen(db, a, row.pr.value.head, row.pr.value.base) == {})
  }

  lemma PutAttemptKeepsAttempt(db: Db, a: AttemptId, row: AttemptRow, b: AttemptId)
    requires a in db.attempts && b in db.attempts && AttemptOk(db, b) && AttemptStep(db, a, row)
    ensures AttemptOk(PutAttempt(db, a, row), b)
  {
    hide RowOk, PriorOpen, SameBranches, OpenPr;
    var db' := PutAttempt(db, a, row);
    assert Superseded(db', b) == Superseded(db, b);
    assert HasPendingWorkerEvents(db', db.attempts[b].task, b) == HasPendingWorkerEvents(db, db.attempts[b].task, b);
  }

  /** The changed attempt against one of its siblings, in both directions. */
  lemma PutAttemptKeepsSibling(db: Db, a: AttemptId, row: AttemptRow, b: AttemptId)
    requires a in db.attempts && b in db.attempts && AttemptStep(db, a, row) && a != b
    requires db.attempts[a].task in db.tasks
    requires Siblings(db, a, b) && Siblings(db, b, a)
    ensures Siblings(PutAttempt(db, a, row), a, b) && Siblings(PutAttempt(db, a, row), b, a)
  {
    hide RowOk;
    var y := db.attempts[b];
    if ReportedPr(row) && OpenPr(y) && SameBranches(row.pr.value, y.pr.value) && y.task == row.task {
      assert y.pr.value.number in PriorOpen(db, a, row.pr.value.head, row.pr.value.base);
    }
  }

  lemma PutAttemptKeepsTasks(db: Db, a: AttemptId, row: AttemptRow)
    requires TasksOk(db) && a in db.attempts && AttemptStep(db, a, row)
    ensures TasksOk(PutAttempt(db, a, row))
  {
    hide LogFrom, Numbered, Terminal, RowOk, PriorOpen, SameBranches, OpenPr, PushedGit, ReportedPr;
    var db' := PutAttempt(db, a, row);
    forall t | t in db'.tasks ensures TaskOk(db', t) {
      assert TaskOk(db, t);
      TaskFrame(db, db', t);
    }
  }

  lemma PutAttemptKeepsRows(db: Db, a: AttemptId, row: AttemptRow)
    requires TasksOk(db) && AttemptsOk(db) && a in db.attempts && AttemptStep(db, a, row)
    ensures TasksOk(PutAttempt(db, a, row)) && AttemptsOk(PutAttempt(db, a, row))
  {
    PutAttemptKeepsTasks(db, a, row);
    hide TasksOk, AttemptStep, RowOk, Drained;
    var db' := PutAttempt(db, a, row);
    forall b | b in db'.attempts ensures AttemptOk(db', b) {
      assert AttemptOk(db, b);
      PutAttemptKeepsAttempt(db, a, row, b);
    }
    forall b, c | b in db'.attempts && c in db'.attempts ensures Siblings(db', b, c) {
      assert Siblings(db, b, c) && Siblings(db, c, b);
      assert AttemptOk(db, a);
      if b == a && c != a {
        PutAttemptKeepsSibling(db, a, row, c);
      } else if c == a && b != a {
        PutAttemptKeepsSibling(db, a, row, b);
      }
    }
  }

  lemma PutAttemptKeeps(db: Db, clock: int, a: AttemptId, row: AttemptRow)
    requires Inv(db, clock) && a in db.attempts && AttemptStep(db, a, row)
    ensures Inv(PutAttempt(db, a, row), clock) && Advances(db, clock, PutAttempt(db, a, row))
  {
    hide TasksOk, AttemptsOk, RowOk, EventOk, Together, PriorOpen, InboxAdvances, RowsAdvance, CommandsAdvance, FrozenAs;
    var db' := PutAttempt(db, a, row);
    PutAttemptKeepsRows(db, a, row);
    SameInboxAdvances(db, clock, db');
    InboxFrame(db, clock, db');
    PutAttemptAdvances(db, a, row);
  }

  lemma PutAttemptAdvances(db: Db, a: AttemptId, row: AttemptRow)
    requires a in db.attempts && AttemptStep(db, a, row)
    ensures RowsAdvance(db, PutAttempt(db, a, row))
  {
    hide RowOk, PriorOpen, CommandsAdvance;
    forall b | b in db.attempts ensures AttemptAdvances(db.attempts[b], db.attempts[b]) {
      AttemptAdvancesIsReflexive(db.attempts[b]);
    }
  }
}
