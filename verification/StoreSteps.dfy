/** The store's operations as one transition function, and what each that creates
    no attempt keeps: the cross-table invariant, and what earlier states established. */
module StoreSteps {
  import opened Wrappers
  import opened TaskState
  import opened Rows
  import opened Transactions
  import opened StoreSpec
  import opened ForgeInbox
  import opened StoreInvariant

  // --------------------------------------------------------- operations and runs

  datatype Op =
    | Create(key: Key, repository: string, prompt: string, newTask: TaskId, newAttempt: AttemptId)
    | Retry(task: TaskId, key: Key, plan: Option<Plan>, newAttempt: AttemptId)
    | FollowUp(ids: seq<ForgeEventId>, followUp: Plan)
    | Cancel(task: TaskId)
    | Observe(task: TaskId)
    | Move(task: TaskId, from: State, to: State, change: ValidationChange)
    | StartRunOf(task: TaskId, attempt: AttemptId, name: string, text: string, event: Option<WorkerEventId>)
    | FinishRunOf(task: TaskId, attempt: AttemptId, name: string, text: string, exit: int, event: Option<WorkerEventId>)
    | Complete(task: TaskId, attempt: AttemptId, validation: ValidationState)
    | Detail(attempt: AttemptId, name: string, text: string, exit: int)
    | Snapshot(task: TaskId, attempt: AttemptId, manifest: Manifest)
    | Exhaust(task: TaskId, attempt: AttemptId)
    | ReportCandidate(attempt: AttemptId, git: GitRow, pr: PrRow)
    | Verify(attempt: AttemptId, git: GitRow, pr: PrRow, metadataValid: bool)
    | Append(task: TaskId, attempt: AttemptId, event: Option<WorkerEventId>, truncates: bool)
    | Processed(worker: WorkerEventId)
    | Accept(id: ForgeEventId, kind: Kind, at: Coordinates, delay: int)
    | Yield(id: ForgeEventId, expected: EventStatus)
    | ErrorOf(id: ForgeEventId, message: string, retryAfter: int)
    | ErrorOfBatch(ids: seq<ForgeEventId>, message: string, retryAfter: int)
    | Fail(id: ForgeEventId, message: string)
    | FailAll(ids: seq<ForgeEventId>, message: string)
    | Handled(id: ForgeEventId)

  function TablesOf(r: Result<Started>): Result<Db> {
    match r
    case Ok(s) => Ok(s.db)
    case Err(e) => Err(e)
  }

  function Apply(db: Db, op: Op, now: int): Result<Db> {
    match op
    case Create(key, repository, prompt, t, a) => TablesOf(CreateTaskOnce(db, key, repository, prompt, t, a))
    case Retry(t, key, plan, a) => TablesOf(RetryTaskOnce(db, t, key, plan, a, now))
    case FollowUp(ids, plan) => TablesOf(StartFollowUp(db, ids, plan, now))
    case Cancel(t) => CancelTask(db, t)
    case Observe(t) => ObserveTask(db, t)
    case Move(t, from, to, change) => TransitionTask(db, t, from, to, change)
    case StartRunOf(t, a, name, text, event) => StartCommand(db, t, a, name, text, event)
    case FinishRunOf(t, a, name, text, exit, event) => FinishCommand(db, t, a, name, text, exit, event)
    case Complete(t, a, state) => CompleteValidation(db, t, a, state)
    case Detail(a, name, text, exit) => DetailValidation(db, a, name, text, exit)
    case Snapshot(t, a, m) => SaveSnapshot(db, t, a, m)
    case Exhaust(t, a) => ExhaustLogs(db, t, a)
    case ReportCandidate(a, git, pr) => RecordCandidate(db, a, git, pr)
    case Verify(a, git, pr, valid) => RecordVerified(db, a, git, pr, valid)
    case Append(t, a, event, truncates) => AppendLine(db, t, a, event, truncates)
    case Processed(w) => ProcessWorkerEvent(db, w)
    case Accept(id, kind, at, delay) => PutEvent(db, id, kind, at, delay, now)
    case Yield(id, expected) => Defer(db, id, expected, now)
    case ErrorOf(id, message, after) => RecordError(db, id, message, after, now)
    case ErrorOfBatch(ids, message, after) => RecordBatchError(db, ids, message, after, now)
    case Fail(id, message) => FailEvent(db, id, message, now)
    case FailAll(ids, message) => FailBatch(db, ids, message, now)
    case Handled(id) => MarkHandled(db, id, now)
  }

  /** A refused transaction is rolled back. */
  function Step(db: Db, op: Op, now: int): Db {
    match Apply(db, op, now)
    case Ok(db') => db'
    case Err(_) => db
  }

  /** The controller records candidates and receipts only for the current attempt,
      under the task lock. */
  ghost predicate Disciplined(db: Db, op: Op) {
    op.ReportCandidate? || op.Verify? ==> IsCurrent(db, op.attempt)
  }

  // --------------------------------------------------- steps on a task's own rows

  ghost predicate GoodView(v: View) {
    v.attempt.state == v.task.state && RowOk(v.attempt) && (Terminal(v.task.state) ==> !v.task.cancel)
  }

  lemma ViewIsGood(db: Db, clock: int, t: TaskId)
    requires Inv(db, clock) && t in db.tasks
    ensures TaskOk(db, t) && GoodView(ViewOf(db, t))
  {
    hide InboxOk, Siblings;
    assert TaskOk(db, t);
    assert AttemptOk(db, db.tasks[t].current);
  }

  lemma ApplyValidationFrame(a: AttemptRow, change: ValidationChange)
    ensures var r := ApplyValidation(a, change);
            r.Ok? ==> r.value == a.(validation := r.value.validation, runs := r.value.runs)
    ensures var r := ApplyValidation(a, change); r.Ok? ==> CommandsAdvance(a.runs, r.value.runs) && (OneRunning(a.runs) ==> OneRunning(r.value.runs))
  {
  }

  /** Finishing a command, or rewriting the texts of a finished one, starts none. */
  lemma UpdateKeepsCommands(runs: seq<ValidationRun>, i: nat, r: ValidationRun)
    requires OneRunning(runs) && i < |runs| && r.name == runs[i].name && r.startEvent == runs[i].startEvent
    requires if runs[i].state == RunRunning then r.state != RunRunning else r == runs[i].(summary := r.summary, error := r.error)
    ensures OneRunning(runs[i := r]) && CommandsAdvance(runs, runs[i := r])
  {
  }

  lemma TransitionStep(v: View, from: State, to: State, change: ValidationChange)
    requires GoodView(v)
    ensures var r := Transition(v, from, to, change); r.Ok? ==> ViewStep(v, r.value)
  {
    hide ApplyValidation, CanTransition;
    ApplyValidationFrame(v.attempt.(state := to), change);
    EdgesClimb(from, to);
  }

  lemma CommandStep(v: View, name: string, text: string, exit: int, event: Option<WorkerEventId>)
    requires GoodView(v)
    ensures var r := RecordValidationStarted(v, name, text, event); r.Ok? ==> ViewStep(v, r.value)
    ensures var r := RecordValidationResult(v, name, text, exit, event); r.Ok? ==> ViewStep(v, r.value)
  {
    hide ApplyValidation, CanTransition, OneRunning;
    ApplyValidationFrame(v.attempt, StartRun(name, text, event));
    var i := FirstRunning(v.attempt.runs);
    if RecordValidationResult(v, name, text, exit, event).Ok? && i < |v.attempt.runs| {
      UpdateKeepsCommands(v.attempt.runs, i, v.attempt.runs[i].(state := RunSucceeded));
      var w := RecordValidationResult(v, name, text, exit, event).value;
      if w != v {
        UpdateKeepsCommands(v.attempt.runs, i, w.attempt.runs[i]);
      }
    }
  }

  lemma TaskRowStep(db: Db, t: TaskId, r: TaskRow)
    requires t in db.tasks && TaskOk(db, t) && r.current == db.tasks[t].current
    ensures db.(tasks := db.tasks[t := r]) == Put(db, t, View(r, db.attempts[r.current]))
  {
  }

  lemma ViewOpKeeps(db: Db, clock: int, op: Op, now: int)
    requires Inv(db, clock) && (op.Cancel? || op.Observe? || op.Move? || op.StartRunOf? || op.FinishRunOf?)
    ensures Inv(Step(db, op, now), clock) && Advances(db, clock, Step(db, op, now))
  {
    hide Inv, Advances, TaskOk, GoodView, ViewStep, Transition, RecordValidationStarted, RecordValidationResult, CanTransition;
    AdvancesIsReflexive(db, clock);
    var t := op.task;
    if t in db.tasks {
      ViewIsGood(db, clock, t);
      ViewOpStep(db, clock, op, now);
    }
  }

  lemma ViewOpStep(db: Db, clock: int, op: Op, now: int)
    requires Inv(db, clock) && (op.Cancel? || op.Observe? || op.Move? || op.StartRunOf? || op.FinishRunOf?)
    requires op.task in db.tasks && TaskOk(db, op.task) && GoodView(ViewOf(db, op.task))
    ensures Inv(Step(db, op, now), clock) && Advances(db, clock, Step(db, op, now))
  {
    hide Inv, Advances, LogFrom, Numbered, Transition, RecordValidationStarted, RecordValidationResult, CanTransition, RowOk;
    AdvancesIsReflexive(db, clock);
    var t := op.task;
    var v := ViewOf(db, t);
    match op {
      case Cancel(_) =>
        if !Terminal(v.task.state) {
          var r := v.task.(cancel := true);
          TaskRowStep(db, t, r);
          PutKeeps(db, clock, t, View(r, v.attempt));
        }
      case Observe(_) =>
        var r := v.task.(log := v.task.log + [AuditEvent(v.task.current, v.task.state, v.task.state)]);
        TaskRowStep(db, t, r);
        PutKeeps(db, clock, t, View(r, v.attempt));
      case Move(_, from, to, change) =>
        TransitionStep(v, from, to, change);
        var tx := Transition(v, from, to, change);
        if tx.Ok? {
          PutKeeps(db, clock, t, tx.value);
        }
      case StartRunOf(_, _, name, text, event) =>
        CommandStep(v, name, text, 0, event);
        var tx := RecordValidationStarted(v, name, text, event);
        if tx.Ok? {
          PutKeeps(db, clock, t, tx.value);
        }
      case FinishRunOf(_, _, name, text, exit, event) =>
        CommandStep(v, name, text, exit, event);
        var tx := RecordValidationResult(v, name, text, exit, event);
        if tx.Ok? {
          PutKeeps(db, clock, t, tx.value);
        }
    }
  }

  // ------------------------------------------------- steps on one attempt's row

  lemma RowIsOk(db: Db, clock: int, a: AttemptId)
    requires Inv(db, clock) && a in db.attempts
    ensures RowOk(db.attempts[a])
  {
    assert AttemptOk(db, a);
  }

  /** A change that touches neither identity, state nor evidence. */
  lemma NeutralStep(db: Db, a: AttemptId, row: AttemptRow)
    requires a in db.attempts && RowOk(db.attempts[a]) && OneRunning(row.runs) && CommandsAdvance(db.attempts[a].runs, row.runs)
    requires var was := db.attempts[a];
             && row == was.(manifest := row.manifest, logsExhausted := row.logsExhausted, validation := row.validation, runs := row.runs)
             && (was.manifest.Some? ==> row.manifest == was.manifest) && (was.logsExhausted ==> row.logsExhausted)
    ensures AttemptStep(db, a, row)
  {
  }

  lemma CandidateStep(db: Db, a: AttemptId, git: GitRow, pr: PrRow)
    requires IsCurrent(db, a) && RowOk(db.attempts[a])
    requires !(PullRequestOpen(db.attempts[a].state) && !PushedGit(db.attempts[a]))
    ensures var tx := RecordPullRequestCandidate(db.attempts[a], PriorPullRequest(db, a, pr.head, pr.base), git, pr);
            tx.Ok? ==> AttemptStep(db, a, tx.value)
  {
    hide PriorOpen, BranchIdentity, FullGitObjectId, Blank;
  }

  lemma VerifiedStep(db: Db, a: AttemptId, git: GitRow, pr: PrRow, valid: bool)
    requires IsCurrent(db, a) && RowOk(db.attempts[a])
    requires !(PullRequestOpen(db.attempts[a].state) && !PushedGit(db.attempts[a]))
    ensures var tx := RecordVerifiedPullRequest(db.attempts[a], git, pr, valid);
            tx.Ok? ==> AttemptStep(db, a, tx.value)
  {
    hide PriorOpen, BranchIdentity, FullGitObjectId, Blank;
  }

  lemma AttemptOpKeeps(db: Db, clock: int, op: Op, now: int)
    requires Inv(db, clock) && Disciplined(db, op)
    requires op.Complete? || op.Detail? || op.Snapshot? || op.Exhaust? || op.ReportCandidate? || op.Verify?
    ensures Inv(Step(db, op, now), clock) && Advances(db, clock, Step(db, op, now))
  {
    hide Inv, Advances, AttemptStep, RecordPullRequestCandidate, RecordVerifiedPullRequest, PriorPullRequest;
    AdvancesIsReflexive(db, clock);
    var tx := Apply(db, op, now);
    var a := op.attempt;
    if tx.Ok? && a in db.attempts {
      RowIsOk(db, clock, a);
      var row := tx.value.attempts[a];
      AttemptOpStep(db, op, now);
      PutAttemptKeeps(db, clock, a, row);
    }
  }

  lemma AttemptOpStep(db: Db, op: Op, now: int)
    requires op.Complete? || op.Detail? || op.Snapshot? || op.Exhaust? || op.ReportCandidate? || op.Verify?
    requires Disciplined(db, op) && op.attempt in db.attempts && RowOk(db.attempts[op.attempt]) && Apply(db, op, now).Ok?
    ensures var db', a := Apply(db, op, now).value, op.attempt;
            a in db'.attempts && db' == PutAttempt(db, a, db'.attempts[a]) && AttemptStep(db, a, db'.attempts[a])
  {
    hide RecordPullRequestCandidate, RecordVerifiedPullRequest, PriorPullRequest, AttemptStep, HasRunning, LatestFailed;
    var db', a := Apply(db, op, now).value, op.attempt;
    if op.ReportCandidate? {
      CandidateStep(db, a, op.git, op.pr);
    } else if op.Verify? {
      VerifiedStep(db, a, op.git, op.pr, op.metadataValid);
    } else {
      assert a in db'.attempts;
      if op.Detail? {
        var runs := db.attempts[a].runs;
        var i := LatestFailed(runs, op.name, op.exit);
        UpdateKeepsCommands(runs, i, db'.attempts[a].runs[i]);
      }
      NeutralStep(db, a, db'.attempts[a]);
    }
  }

  // ------------------------------------------------------------ steps on the outbox

  lemma AppendKeeps(db: Db, clock: int, t: TaskId, a: AttemptId, event: Option<WorkerEventId>, truncates: bool)
    requires Inv(db, clock) && AppendLine(db, t, a, event, truncates).Ok?
    ensures var db' := AppendLine(db, t, a, event, truncates).value; Inv(db', clock) && Advances(db, clock, db')
  {
    hide Inv, Advances, TaskOk, RowOk;
    var db' := AppendLine(db, t, a, event, truncates).value;
    ViewIsGood(db, clock, t);
    var v := ViewOf(db, t);
    var r := v.task.(log := if truncates then v.task.log + [AuditEvent(a, v.attempt.state, v.attempt.state)] else v.task.log);
    var mid := Put(db, t, View(r, v.attempt));
    PutKeeps(db, clock, t, View(r, v.attempt));
    assert mid == db.(tasks := db'.tasks);
    if event.Some? && event.value !in db.outbox {
      EnqueueKeeps(mid, clock, event.value, t, a);
      AdvancesIsTransitive(db, clock, mid, clock, db');
    }
  }

  /** Only the current attempt queues worker events, so superseded ones stay drained. */
  lemma EnqueueKeeps(db: Db, clock: int, w: WorkerEventId, t: TaskId, a: AttemptId)
    requires Inv(db, clock) && w !in db.outbox && IsCurrent(db, a) && db.attempts[a].task == t
    ensures var db' := db.(outbox := db.outbox[w := WorkerEventRow(t, a, false)]); Inv(db', clock) && Advances(db, clock, db')
  {
    var db' := db.(outbox := db.outbox[w := WorkerEventRow(t, a, false)]);
    forall b | b in db.attempts && b != a
      ensures HasPendingWorkerEvents(db', db.attempts[b].task, b) ==> HasPendingWorkerEvents(db, db.attempts[b].task, b)
    {
      if HasPendingWorkerEvents(db', db.attempts[b].task, b) {
        var x :| x in db'.outbox && db'.outbox[x].task == db.attempts[b].task && db'.outbox[x].attempt == b && !db'.outbox[x].processed;
        assert x in db.outbox;
      }
    }
    OutboxFrame(db, clock, db');
  }

  lemma ProcessKeeps(db: Db, clock: int, w: WorkerEventId)
    requires Inv(db, clock)
    ensures var db' := ProcessWorkerEvent(db, w).value; Inv(db', clock) && Advances(db, clock, db')
  {
    hide TasksOk, AttemptsOk, IntentsOk, InboxOk, Advances;
    var db' := ProcessWorkerEvent(db, w).value;
    ProcessDrains(db, w);
    OutboxFrame(db, clock, db');
  }

  lemma ProcessDrains(db: Db, w: WorkerEventId)
    ensures DrainedStay(db, ProcessWorkerEvent(db, w).value)
  {
    hide Superseded;
    var db' := ProcessWorkerEvent(db, w).value;
    forall b | b in db.attempts && HasPendingWorkerEvents(db', db.attempts[b].task, b)
      ensures HasPendingWorkerEvents(db, db.attempts[b].task, b)
    {
      var x :| x in db'.outbox && db'.outbox[x].task == db.attempts[b].task && db'.outbox[x].attempt == b && !db'.outbox[x].processed;
      assert x in db.outbox && !db.outbox[x].processed;
    }
  }

  lemma OutboxFrame(db: Db, clock: int, db': Db)
    requires Inv(db, clock) && db' == db.(outbox := db'.outbox) && OutboxAdvances(db, db') && OutboxOk(db') && DrainedStay(db, db')
    ensures Inv(db', clock) && Advances(db, clock, db')
  {
    hide TaskOk, AttemptOk, Siblings, EventOk, Together, OutboxAdvances, DrainedStay;
    RowsFrame(db, db');
    InboxFrame(db, clock, db');
  }

  /** No superseded attempt gains a pending worker event. */
  ghost predicate DrainedStay(db: Db, db': Db) {
    forall b {:trigger Superseded(db, b)} | b in db.attempts && Superseded(db, b) ::
      HasPendingWorkerEvents(db', db.attempts[b].task, b) ==> HasPendingWorkerEvents(db, db.attempts[b].task, b)
  }

  /** Tasks and attempts do not depend on the inbox, and on the outbox only in that
      superseded attempts are drained. */
  lemma RowsFrame(db: Db, db': Db)
    requires TasksOk(db) && AttemptsOk(db) && IntentsOk(db) && db' == db.(inbox := db'.inbox, outbox := db'.outbox)
    requires DrainedStay(db, db')
    ensures TasksOk(db') && AttemptsOk(db') && IntentsOk(db')
    ensures RowsAdvance(db, db') && IntentsAdvance(db, db')
  {
    hide LogFrom, Numbered, Terminal, RowOk, HasPendingWorkerEvents;
    forall t | t in db'.tasks ensures TaskOk(db', t) {
      assert TaskOk(db, t);
      TaskFrame(db, db', t);
    }
    forall a | a in db'.attempts ensures AttemptOk(db', a) {
      hide TaskOk, Siblings;
      assert AttemptOk(db, a);
      assert Superseded(db', a) == Superseded(db, a);
    }
    forall a, b | a in db'.attempts && b in db'.attempts ensures Siblings(db', a, b) {
      hide TaskOk, AttemptOk;
      assert Siblings(db, a, b);
    }
    hide TaskOk, Siblings, AttemptOk, AttemptAdvances;
    forall a | a in db.attempts ensures AttemptAdvances(db.attempts[a], db.attempts[a]) {
      AttemptAdvancesIsReflexive(db.attempts[a]);
    }
  }

  // ------------------------------------------------------------- steps on the inbox

  /** A change to one event that keeps its association: bookkeeping, handling or failure. */
  ghost predicate EventStep(e: ForgeEvent, f: ForgeEvent, clock: int, now: int) {
    && EventAdvances(e, f, clock) && f.task == e.task && f.attempt == e.attempt
    && (f.status == e.status || f.status == EventHandled || f.status == EventFailed)
    && (f == e || f.updatedAt == now)
  }

  ghost predicate InboxStep(inbox: map<ForgeEventId, ForgeEvent>, next: map<ForgeEventId, ForgeEvent>, clock: int, now: int) {
    && (forall e | e in inbox :: e in next && EventStep(inbox[e], next[e], clock, now))
    && (forall e | e in next && e !in inbox :: next[e].status == EventPending && Unassociated(next[e]) && next[e].updatedAt == now)
  }

  lemma SubsetIsSmaller<T>(s: set<T>, t: set<T>)
    requires s <= t
    ensures |s| <= |t|
  {
    assert t == s + (t - s);
  }

  lemma InboxStepKeepsInbox(db: Db, clock: int, db': Db, now: int)
    requires InboxOk(db, clock) && clock < now && db' == db.(inbox := db'.inbox) && InboxStep(db.inbox, db'.inbox, clock, now)
    ensures InboxOk(db', now)
  {
    forall e | e in db'.inbox ensures EventOk(db', db'.inbox[e], now) {
      hide OpenPr;
      if e in db.inbox {
        assert EventOk(db, db.inbox[e], clock);
      }
    }
    forall e, f | e in db'.inbox && f in db'.inbox && e != f ensures Together(db'.inbox[e], db'.inbox[f]) {
      if e in db.inbox && f in db.inbox {
        assert Together(db.inbox[e], db.inbox[f]);
      }
    }
    forall t: TaskId ensures |RunningOf(db', t)| <= BATCH_SIZE {
      assert RunningOf(db', t) <= RunningOf(db, t);
      SubsetIsSmaller(RunningOf(db', t), RunningOf(db, t));
    }
  }

  lemma InboxStepKeeps(db: Db, clock: int, db': Db, now: int)
    requires Inv(db, clock) && clock < now && db' == db.(inbox := db'.inbox) && InboxStep(db.inbox, db'.inbox, clock, now)
    ensures Inv(db', now) && Advances(db, clock, db')
  {
    InboxStepKeepsInbox(db, clock, db', now);
    hide InboxOk, TaskOk, AttemptOk, Siblings;
    assert DrainedStay(db, db') && OutboxOk(db') && OutboxAdvances(db, db');
    RowsFrame(db, db');
    assert InboxAdvances(db, clock, db');
  }

  ghost predicate BookkeepingOp(op: Op) {
    op.Accept? || op.Yield? || op.ErrorOf? || op.ErrorOfBatch? || op.Handled?
  }

  lemma BookkeepingStep(db: Db, clock: int, op: Op, now: int)
    requires clock < now && BookkeepingOp(op)
    requires forall e | e in db.inbox :: EventOk(db, db.inbox[e], clock)
    requires Apply(db, op, now).Ok?
    ensures var db' := Apply(db, op, now).value;
            db' == db.(inbox := db'.inbox) && InboxStep(db.inbox, db'.inbox, clock, now)
  {
    hide RetryDelay, Acceptable, RecordBatchError, PutEvent, RecordError, MarkHandled, Defer, InboxStep;
    match op {
      case Accept(id, kind, at, delay) => AcceptStep(db, clock, id, kind, at, delay, now);
      case ErrorOfBatch(ids, message, after) => BatchErrorStep(db, clock, ids, message, after, now);
      case Yield(id, expected) => OneEventStep(db, clock, id, expected, "", 0, now);
      case ErrorOf(id, message, after) => OneEventStep(db, clock, id, EventPending, message, after, now);
      case Handled(id) => OneEventStep(db, clock, id, EventPending, "", 0, now);
    }
  }

  lemma AcceptStep(db: Db, clock: int, id: ForgeEventId, kind: Kind, at: Coordinates, delay: int, now: int)
    requires clock < now && PutEvent(db, id, kind, at, delay, now).Ok?
    requires forall e | e in db.inbox :: EventOk(db, db.inbox[e], clock)
    ensures var db' := PutEvent(db, id, kind, at, delay, now).value;
            db' == db.(inbox := db'.inbox) && InboxStep(db.inbox, db'.inbox, clock, now)
  {
    hide Acceptable, EventStep;
    var db' := PutEvent(db, id, kind, at, delay, now).value;
    forall e | e in db.inbox ensures e in db'.inbox && EventStep(db.inbox[e], db'.inbox[e], clock, now) {
      SlideStep(db.inbox[e], clock, delay, now);
    }
  }

  /** Staying, or sliding to a new deadline while pending. */
  lemma SlideStep(e: ForgeEvent, clock: int, delay: int, now: int)
    requires clock < now
    ensures EventStep(e, e, clock, now)
    ensures e.status == EventPending ==> EventStep(e, e.(nextAttempt := Some(now + delay), updatedAt := now), clock, now)
  {
  }

  ghost predicate InboxOnly(db: Db, clock: int, tx: Result<Db>, now: int) {
    tx.Ok? ==> tx.value == db.(inbox := tx.value.inbox) && InboxStep(db.inbox, tx.value.inbox, clock, now)
  }

  lemma OneEventStep(db: Db, clock: int, id: ForgeEventId, expected: EventStatus, message: string, after: int, now: int)
    requires clock < now
    ensures InboxOnly(db, clock, Defer(db, id, expected, now), now)
    ensures InboxOnly(db, clock, RecordError(db, id, message, after, now), now)
    ensures InboxOnly(db, clock, MarkHandled(db, id, now), now)
  {
    hide RetryDelay, ClampRetryAfter, EventStep;
    NoChange(db.inbox, clock, now);
    if id in db.inbox {
      forall f | EventStep(db.inbox[id], f, clock, now)
        ensures InboxStep(db.inbox, db.inbox[id := f], clock, now)
      {
        OneChange(db.inbox, id, f, clock, now);
      }
      var e := db.inbox[id];
      EventChanges(e, message, clock, now);
    }
  }

  lemma NoChange(inbox: map<ForgeEventId, ForgeEvent>, clock: int, now: int)
    ensures InboxStep(inbox, inbox, clock, now)
  {
  }

  lemma OneChange(inbox: map<ForgeEventId, ForgeEvent>, id: ForgeEventId, f: ForgeEvent, clock: int, now: int)
    requires id in inbox && EventStep(inbox[id], f, clock, now)
    ensures InboxStep(inbox, inbox[id := f], clock, now)
  {
  }

  /** Pacing, counting an error and handling are steps of an event. */
  lemma EventChanges(e: ForgeEvent, message: string, clock: int, now: int)
    requires clock < now
    ensures Incomplete(e) ==> forall next :: EventStep(e, e.(nextAttempt := next, updatedAt := now), clock, now)
    ensures Incomplete(e) ==> forall n: nat, next :: EventStep(e, e.(attempts := n, lastError := message, updatedAt := now, nextAttempt := next), clock, now)
    ensures e.status != EventFailed ==>
              EventStep(e, e.(status := EventHandled, lastError := "", nextAttempt := None, updatedAt := now,
                              handledAt := if e.handledAt.Some? then e.handledAt else Some(now)), clock, now)
  {
  }

  lemma BatchErrorStep(db: Db, clock: int, ids: seq<ForgeEventId>, message: string, after: int, now: int)
    requires clock < now && RecordBatchError(db, ids, message, after, now).Ok?
    requires forall e | e in db.inbox :: EventOk(db, db.inbox[e], clock)
    ensures var db' := RecordBatchError(db, ids, message, after, now).value;
            db' == db.(inbox := db'.inbox) && InboxStep(db.inbox, db'.inbox, clock, now)
  {
    hide RetryDelay, ValidateOutcome, DeferralReplay, BatchDelay, LargestAttempts;
    if DeferralReplay(db, ids, message, ClampRetryAfter(after), now).NotReplay? {
      OutcomeIsUniform(db, ids, now);
    }
  }

  lemma OutcomeIsUniform(db: Db, ids: seq<ForgeEventId>, now: int)
    requires ids != [] && Present(db, ids) && ValidateOutcome(db, ids, now).Ok?
    ensures var first := db.inbox[ids[0]];
            && Incomplete(first)
            && forall id | id in ids :: db.inbox[id].status == first.status && db.inbox[id].task == first.task && db.inbox[id].attempt == first.attempt
                                        && (first.status == EventPending ==> Due(db.inbox[id], now))
    ensures var first, outcome := db.inbox[ids[0]], ValidateOutcome(db, ids, now).value;
            match outcome
            case PendingBatch => first.status == EventPending && Unassociated(first)
            case RunningBatch(t, a) => first.status == EventRunning && first.task == Some(t) && first.attempt == Some(a) && |RunningFor(db, t, a)| == |ids|
  {
    hide OneBatch;
  }

  lemma BookkeepingKeeps(db: Db, clock: int, op: Op, now: int)
    requires Inv(db, clock) && clock < now && BookkeepingOp(op)
    ensures Inv(Step(db, op, now), now) && Advances(db, clock, Step(db, op, now))
  {
    if Apply(db, op, now).Ok? {
      assert forall e | e in db.inbox :: EventOk(db, db.inbox[e], clock);
      BookkeepingStep(db, clock, op, now);
      hide Inv, Advances, Apply, InboxStep;
      InboxStepKeeps(db, clock, Step(db, op, now), now);
    } else {
      LaterClock(db, clock, now);
      AdvancesIsReflexive(db, clock);
    }
  }

  lemma LaterClock(db: Db, clock: int, now: int)
    requires Inv(db, clock) && clock <= now
    ensures Inv(db, now)
  {
    hide TasksOk, AttemptsOk, OutboxOk, IntentsOk, OpenPr;
    forall e | e in db.inbox ensures EventOk(db, db.inbox[e], now) {
      assert EventOk(db, db.inbox[e], clock);
    }
  }

  // ---------------------------------------------------------------- steps that fail

  lemma CancelOwnerKeeps(db: Db, clock: int, t: TaskId, a: AttemptId)
    requires Inv(db, clock)
    ensures var db' := db.(tasks := CancelOwner(db, t, a)); Inv(db', clock) && Advances(db, clock, db')
  {
    hide Inv, Advances;
    AdvancesIsReflexive(db, clock);
    if t in db.tasks && db.tasks[t].current == a && !Terminal(db.tasks[t].state) {
      ViewOpKeeps(db, clock, Cancel(t), clock);
    }
  }

  /** A failure changes the inbox as any bookkeeping does, and may cancel one owner. */
  ghost predicate FailedFrom(db: Db, clock: int, db': Db, now: int) {
    && db' == db.(inbox := db'.inbox, tasks := db'.tasks)
    && InboxStep(db.inbox, db'.inbox, clock, now)
    && (db'.tasks == db.tasks || exists t, a :: db'.tasks == CancelOwner(db, t, a))
  }

  lemma FailEventStep(db: Db, clock: int, id: ForgeEventId, message: string, now: int)
    requires clock < now && FailEvent(db, id, message, now).Ok?
    requires forall e | e in db.inbox :: EventOk(db, db.inbox[e], clock)
    ensures FailedFrom(db, clock, FailEvent(db, id, message, now).value, now)
  {
    hide CancelOwner, Blank, EventOk;
    var db' := FailEvent(db, id, message, now).value;
    forall e | e in db.inbox ensures e in db'.inbox && EventStep(db.inbox[e], db'.inbox[e], clock, now) {
    }
    hide EventStep, FailEvent;
    FailEventCancels(db, id, message, now);
    assert InboxStep(db.inbox, db'.inbox, clock, now);
  }

  lemma FailEventCancels(db: Db, id: ForgeEventId, message: string, now: int)
    requires FailEvent(db, id, message, now).Ok?
    ensures var db' := FailEvent(db, id, message, now).value;
            && db' == db.(inbox := db'.inbox, tasks := db'.tasks) && db'.inbox.Keys == db.inbox.Keys
            && (db'.tasks == db.tasks || exists t, a :: db'.tasks == CancelOwner(db, t, a))
  {
    hide CancelOwner, Blank;
  }

  lemma FailBatchStep(db: Db, clock: int, ids: seq<ForgeEventId>, message: string, now: int)
    requires clock < now && FailBatch(db, ids, message, now).Ok?
    requires forall e | e in db.inbox :: EventOk(db, db.inbox[e], clock)
    ensures FailedFrom(db, clock, FailBatch(db, ids, message, now).value, now)
  {
    hide FailureReplay, ValidateOutcome, CancelOwner, Blank;
    if FailureReplay(db, ids, message).NotReplay? {
      OutcomeIsUniform(db, ids, now);
    }
  }

  lemma FailKeeps(db: Db, clock: int, op: Op, now: int)
    requires Inv(db, clock) && clock < now && (op.Fail? || op.FailAll?)
    ensures Inv(Step(db, op, now), now) && Advances(db, clock, Step(db, op, now))
  {
    if Apply(db, op, now).Ok? {
      assert forall e | e in db.inbox :: EventOk(db, db.inbox[e], clock);
      if op.Fail? {
        FailEventStep(db, clock, op.id, op.message, now);
      } else {
        FailBatchStep(db, clock, op.ids, op.message, now);
      }
      var db' := Apply(db, op, now).value;
      hide Inv, Advances, Apply, InboxStep, CancelOwner, FailEvent, FailBatch;
      var mid := db.(tasks := db'.tasks);
      AdvancesIsReflexive(db, clock);
      if mid.tasks != db.tasks {
        var t, a :| db'.tasks == CancelOwner(db, t, a);
        CancelOwnerKeeps(db, clock, t, a);
      }
      InboxStepKeeps(mid, clock, db', now);
      AdvancesIsTransitive(db, clock, mid, clock, db');
    } else {
      LaterClock(db, clock, now);
      AdvancesIsReflexive(db, clock);
    }
  }
}
