/** The store's tables and its transactions as functions on them: a transaction
    gives the complete new tables or an error, and an error changes nothing. */
module StoreSpec {
  import opened Wrappers
  import opened TaskState
  import opened Rows
  import opened Transactions

  // ------------------------------------------------------------------- tables

  datatype Kind = ReviewComment | QualityGateFailed

  /** Identities the store compares without regard to case are held case-folded. */
  datatype Coordinates = Coordinates(provider: string, owner: string, repository: string, number: nat, sha: string)

  datatype EventStatus = EventPending | EventRunning | EventHandled | EventFailed

  /** One row of the forge-event inbox. */
  datatype ForgeEvent = ForgeEvent(
    kind: Kind, at: Coordinates, status: EventStatus, task: Option<TaskId>, attempt: Option<AttemptId>,
    attempts: nat, lastError: string, updatedAt: int, nextAttempt: Option<int>,
    handledAt: Option<int>, failedAt: Option<int>)

  /** One row of the worker-event outbox. */
  datatype WorkerEventRow = WorkerEventRow(task: TaskId, attempt: AttemptId, processed: bool)

  type Key = string

  datatype Db = Db(
    tasks: map<TaskId, TaskRow>,
    attempts: map<AttemptId, AttemptRow>,
    inbox: map<ForgeEventId, ForgeEvent>,
    outbox: map<WorkerEventId, WorkerEventRow>,
    createIntents: map<Key, TaskId>,
    retryIntents: map<(TaskId, Key), AttemptId>)

  const EMPTY := Db(map[], map[], map[], map[], map[], map[])

  const SECOND := 1_000_000_000
  const BATCH_SIZE := 32
  const YIELD_DELAY := 5 * SECOND
  const RETRY_BASE := 5 * SECOND
  const RETRY_MAX := 300 * SECOND
  const RETRY_AFTER_MAX := 86_400 * SECOND

  // ------------------------------------------------------------------ queries

  predicate IsCurrent(db: Db, a: AttemptId) {
    && a in db.attempts && db.attempts[a].task in db.tasks
    && db.tasks[db.attempts[a].task].current == a
  }

  function AttemptsOf(db: Db, t: TaskId): set<AttemptId> {
    set a | a in db.attempts && db.attempts[a].task == t
  }

  function Numbers(db: Db, t: TaskId): set<nat> {
    set a | a in db.attempts && db.attempts[a].task == t :: db.attempts[a].number
  }

  predicate AtMost(s: set<nat>, bound: nat) {
    forall x | x in s :: x <= bound
  }

  lemma {:induction false} MaximumExists(s: set<nat>)
    requires s != {}
    ensures exists x | x in s :: AtMost(s, x)
  {
    var y :| y in s;
    var rest := s - {y};
    if rest == {} {
      assert s == {y} && AtMost(s, y);
    } else {
      MaximumExists(rest);
      var x :| x in rest && AtMost(rest, x);
      var m := if x < y then y else x;
      assert m in s && forall z | z in s :: z == y || z in rest;
      assert AtMost(s, m);
    }
  }

  /** `COALESCE(MAX(number), 0)`. */
  function MaxOf(s: set<nat>): (m: nat)
    ensures AtMost(s, m)
    ensures if s == {} then m == 0 else m in s
  {
    if s == {} then 0
    else
      MaximumExists(s);
      var x :| x in s && AtMost(s, x);
      x
  }

  function NextNumber(db: Db, t: TaskId): nat {
    MaxOf(Numbers(db, t)) + 1
  }

  /** The running forge events of a task. */
  function RunningOf(db: Db, t: TaskId): set<ForgeEventId> {
    set e | e in db.inbox && db.inbox[e].status == EventRunning && db.inbox[e].task == Some(t)
  }

  /** The running forge events bound to one attempt of a task. */
  function RunningFor(db: Db, t: TaskId, a: AttemptId): set<ForgeEventId> {
    set e | e in db.inbox && db.inbox[e].status == EventRunning && db.inbox[e].task == Some(t) && db.inbox[e].attempt == Some(a)
  }

  predicate HasPendingWorkerEvents(db: Db, t: TaskId, a: AttemptId) {
    exists w | w in db.outbox :: db.outbox[w].task == t && db.outbox[w].attempt == a && !db.outbox[w].processed
  }

  /** What the other attempts of the same task say about a pull request on these branches. */
  function PriorOpen(db: Db, a: AttemptId, head: string, base: string): set<nat>
    requires a in db.attempts
  {
    set b | b in db.attempts && b != a && db.attempts[b].task == db.attempts[a].task
            && OpenPr(db.attempts[b]) && db.attempts[b].pr.value.head == head && db.attempts[b].pr.value.base == base
          :: db.attempts[b].pr.value.number
  }

  function PriorPullRequest(db: Db, a: AttemptId, head: string, base: string): Prior
    requires a in db.attempts
  {
    var numbers := PriorOpen(db, a, head, base);
    if numbers == {} then NoPrior
    else
      var n := MaxOf(numbers);
      if n > 0 && numbers == {n} then PriorNumber(n) else PriorClash
  }

  // ------------------------------------------- transactions on one task's view

  function ViewOf(db: Db, t: TaskId): View
    requires t in db.tasks && db.tasks[t].current in db.attempts
  {
    View(db.tasks[t], db.attempts[db.tasks[t].current])
  }

  function Put(db: Db, t: TaskId, v: View): Db
    requires t in db.tasks
  {
    db.(tasks := db.tasks[t := v.task], attempts := db.attempts[db.tasks[t].current := v.attempt])
  }

  function PutAttempt(db: Db, a: AttemptId, row: AttemptRow): Db {
    db.(attempts := db.attempts[a := row])
  }

  function PutResult(db: Db, t: TaskId, tx: Result<View>): Result<Db>
    requires t in db.tasks
  {
    match tx
    case Ok(v) => Ok(Put(db, t, v))
    case Err(e) => Err(e)
  }

  function PutAttemptResult(db: Db, a: AttemptId, tx: Result<AttemptRow>): Result<Db> {
    match tx
    case Ok(row) => Ok(PutAttempt(db, a, row))
    case Err(e) => Err(e)
  }

  function TransitionTask(db: Db, t: TaskId, from: State, to: State, change: ValidationChange): Result<Db> {
    if !CanTransition(from, to) then Err(Invalid)
    else if t !in db.tasks then Err(NotFound)
    else if db.tasks[t].current !in db.attempts then Err(Conflict)
    else PutResult(db, t, Transition(ViewOf(db, t), from, to, change))
  }

  function CancelTask(db: Db, t: TaskId): Result<Db> {
    if t !in db.tasks then Err(NotFound)
    else if Terminal(db.tasks[t].state) then Err(Invalid)
    else Ok(db.(tasks := db.tasks[t := db.tasks[t].(cancel := true)]))
  }

  function ObserveTask(db: Db, t: TaskId): Result<Db> {
    if t !in db.tasks then Err(NotFound)
    else
      var r := db.tasks[t];
      Ok(db.(tasks := db.tasks[t := r.(log := r.log + [AuditEvent(r.current, r.state, r.state)])]))
  }

  /** Whether any attempt has a command started, or finished, by this worker event. */
  predicate StartedAnywhere(db: Db, event: Option<WorkerEventId>) {
    exists a | a in db.attempts :: StartedBy(db.attempts[a].runs, event)
  }

  predicate FinishedAnywhere(db: Db, event: Option<WorkerEventId>) {
    exists a | a in db.attempts :: FinishedBy(db.attempts[a].runs, event)
  }

  /** Commands are recorded once, and only for the current attempt. */
  function StartCommand(db: Db, t: TaskId, a: AttemptId, name: string, summary: string, event: Option<WorkerEventId>): Result<Db> {
    if StartedAnywhere(db, event) then Ok(db)
    else if t !in db.tasks then Err(NotFound)
    else if db.tasks[t].current != a || a !in db.attempts then Err(Conflict)
    else PutResult(db, t, RecordValidationStarted(ViewOf(db, t), name, summary, event))
  }

  function FinishCommand(db: Db, t: TaskId, a: AttemptId, name: string, summary: string, exit: int, event: Option<WorkerEventId>): Result<Db> {
    if FinishedAnywhere(db, event) then Ok(db)
    else if t !in db.tasks then Err(NotFound)
    else if db.tasks[t].current != a || a !in db.attempts then Err(Conflict)
    else PutResult(db, t, RecordValidationResult(ViewOf(db, t), name, summary, exit, event))
  }

  // ------------------------------------------------- transactions on an attempt

  predicate Owns(db: Db, t: TaskId, a: AttemptId) {
    a in db.attempts && db.attempts[a].task == t
  }

  function CompleteValidation(db: Db, t: TaskId, a: AttemptId, state: ValidationState): Result<Db> {
    if state == NotValidated then Err(Invalid)
    else if !Owns(db, t, a) || HasRunning(db.attempts[a].runs) || db.attempts[a].runs == [] then Err(Conflict)
    else Ok(PutAttempt(db, a, db.attempts[a].(validation := state)))
  }

  function DetailValidation(db: Db, a: AttemptId, name: string, detail: string, exit: int): Result<Db> {
    if a !in db.attempts then Err(Conflict)
    else
      var runs := db.attempts[a].runs;
      var i := LatestFailed(runs, name, exit);
      if i < 0 then Err(Conflict)
      else Ok(PutAttempt(db, a, db.attempts[a].(runs := runs[i := runs[i].(summary := detail, error := detail)])))
  }

  function SaveSnapshot(db: Db, t: TaskId, a: AttemptId, m: Manifest): Result<Db> {
    if !Owns(db, t, a) then Err(NotFound) else PutAttemptResult(db, a, SaveAttemptSnapshot(db.attempts[a], m))
  }

  function ExhaustLogs(db: Db, t: TaskId, a: AttemptId): Result<Db> {
    if !Owns(db, t, a) then Err(NotFound) else Ok(PutAttempt(db, a, MarkLogsExhausted(db.attempts[a])))
  }

  function RecordCandidate(db: Db, a: AttemptId, git: GitRow, pr: PrRow): Result<Db> {
    if a !in db.attempts then Err(NotFound)
    else PutAttemptResult(db, a, RecordPullRequestCandidate(db.attempts[a], PriorPullRequest(db, a, pr.head, pr.base), git, pr))
  }

  function RecordVerified(db: Db, a: AttemptId, git: GitRow, pr: PrRow, metadataValid: bool): Result<Db> {
    if a !in db.attempts then Err(NotFound)
    else PutAttemptResult(db, a, RecordVerifiedPullRequest(db.attempts[a], git, pr, metadataValid))
  }

  // ------------------------------------------------------- log lines and outbox

  /** The part of `AppendPodLog` outside the log chunks: the guard, the queued
      worker event and the observation made when the quota is first reached. */
  function AppendLine(db: Db, t: TaskId, a: AttemptId, event: Option<WorkerEventId>, truncates: bool): Result<Db> {
    if !Owns(db, t, a) then Err(NotFound)
    else if t !in db.tasks || db.tasks[t].current != a || db.attempts[a].logsExhausted then Err(Conflict)
    else
      var r, state := db.tasks[t], db.attempts[a].state;
      Ok(db.(tasks := if truncates then db.tasks[t := r.(log := r.log + [AuditEvent(a, state, state)])] else db.tasks,
             outbox := if event.Some? && event.value !in db.outbox then db.outbox[event.value := WorkerEventRow(t, a, false)] else db.outbox))
  }

  function ProcessWorkerEvent(db: Db, w: WorkerEventId): Result<Db> {
    if w !in db.outbox then Ok(db)
    else Ok(db.(outbox := db.outbox[w := db.outbox[w].(processed := true)]))
  }

  // ---------------------------------------------------------- creating attempts

  /** The outcome of an idempotent insertion: the attempt or task it concerns, and
      whether this call inserted it. */
  datatype Started = Started(db: Db, id: nat, inserted: bool)

  function BlankAttempt(t: TaskId): AttemptRow {
    AttemptRow(t, 1, Received, "", "", "", None, false, NotValidated, [], None, None)
  }

  function CreateTaskOnce(db: Db, key: Key, repository: string, prompt: string, task: TaskId, attempt: AttemptId): Result<Started> {
    if key != "" && Blank(key) then Err(Invalid)
    else if Blank(repository) || Blank(prompt) then Err(Invalid)
    else if key != "" && key in db.createIntents then
      if db.createIntents[key] in db.tasks then Ok(Started(db, db.createIntents[key], false)) else Err(NotFound)
    else if task in db.tasks || attempt in db.attempts then Err(Conflict)
    else
      Ok(Started(db.(tasks := db.tasks[task := TaskRow(Received, attempt, false, [])],
                     attempts := db.attempts[attempt := BlankAttempt(task)],
                     createIntents := if key != "" then db.createIntents[key := task] else db.createIntents),
                 task, true))
  }

  /** An attempt planned outside the transaction that will insert it. */
  datatype Plan = Plan(
    attempt: AttemptId, task: TaskId, previous: AttemptId, number: nat,
    prompt: string, baseBranch: string, taskBranch: string, manifest: Option<Manifest>)

  function QueuedAttempt(t: TaskId, number: nat, prompt: string, base: string, branch: string, m: Option<Manifest>, pr: Option<PrRow>): AttemptRow {
    AttemptRow(t, number, Queued, prompt, base, branch, m, false, NotValidated, [], None, pr)
  }

  /** What a retry must carry over: the prompt and branches of a running follow-up. */
  datatype Carried = Carried(prompt: string, base: string, branch: string, pr: Option<PrRow>)

  function CarriedOver(db: Db, t: TaskId): Result<Carried>
    requires t in db.tasks && db.tasks[t].current in db.attempts
  {
    var current := db.tasks[t].current;
    var a := db.attempts[current];
    if RunningFor(db, t, current) == {} then Ok(Carried("", "", "", None))
    else if !OpenPr(a) then Err(Conflict)
    else Ok(Carried(a.prompt, a.pr.value.base, a.pr.value.head, a.pr))
  }

  /** The conditions under which a task may be retried. */
  function Retryable(db: Db, t: TaskId): Result<Carried> {
    if t !in db.tasks || db.tasks[t].current !in db.attempts then Err(NotFound)
    else if !CanRetry(db.tasks[t].state, Queued) then Err(Invalid)
    else if HasPendingWorkerEvents(db, t, db.tasks[t].current) then Err(Conflict)
    else if !db.attempts[db.tasks[t].current].logsExhausted then Err(Conflict)
    else CarriedOver(db, t)
  }

  function Rebound(inbox: map<ForgeEventId, ForgeEvent>, t: TaskId, from: AttemptId, to: AttemptId, now: int): map<ForgeEventId, ForgeEvent> {
    map e | e in inbox ::
      if inbox[e].status == EventRunning && inbox[e].task == Some(t) && inbox[e].attempt == Some(from)
      then inbox[e].(attempt := Some(to), updatedAt := now) else inbox[e]
  }

  /** `retryTaskOnce`. `plan` is the snapshotted attempt, if there is one. */
  function RetryTaskOnce(db: Db, t: TaskId, key: Key, plan: Option<Plan>, newId: AttemptId, now: int): Result<Started> {
    if key != "" && (t, key) in db.retryIntents then Ok(Started(db, db.retryIntents[(t, key)], false))
    else
      match Retryable(db, t)
      case Err(e) => Err(e)
      case Ok(carried) =>
        var current, number := db.tasks[t].current, NextNumber(db, t);
        if plan.None? && carried.pr.Some? then Err(Conflict)
        else if plan.Some? && !(plan.value.previous == current && plan.value.task == t && plan.value.number == number
                                && plan.value.prompt == carried.prompt && plan.value.baseBranch == carried.base
                                && plan.value.taskBranch == carried.branch && plan.value.manifest.Some?) then Err(Conflict)
        else
          var id := if plan.Some? then plan.value.attempt else newId;
          if id in db.attempts then Err(Conflict)
          else
            var manifest := if plan.Some? then plan.value.manifest else None;
            var row := QueuedAttempt(t, number, carried.prompt, carried.base, carried.branch, manifest, carried.pr);
            Ok(Started(Reset(db, t, id, row, false, Rebound(db.inbox, t, current, id, now), key), id, true))
  }

  /** Selects a new attempt: the shared end of a retry and of a follow-up. */
  function Reset(db: Db, t: TaskId, id: AttemptId, row: AttemptRow, cancel: bool, inbox: map<ForgeEventId, ForgeEvent>, key: Key): Db
    requires t in db.tasks
  {
    var r := db.tasks[t];
    db.(tasks := db.tasks[t := TaskRow(Queued, id, cancel, r.log + [AuditEvent(id, r.state, Queued)])],
        attempts := db.attempts[id := row],
        inbox := inbox,
        retryIntents := if key != "" then db.retryIntents[(t, key) := id] else db.retryIntents)
  }

  /** `PlanRetryAttempt`, completed with the snapshot the controller builds. */
  function PlanRetry(db: Db, t: TaskId, id: AttemptId, m: Manifest): Result<Plan> {
    match Retryable(db, t)
    case Err(e) => Err(e)
    case Ok(carried) => Ok(Plan(id, t, db.tasks[t].current, NextNumber(db, t), carried.prompt, carried.base, carried.branch, Some(m)))
  }
}
