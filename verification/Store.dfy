/** The store as an object: every method is one transaction that rewrites its tables
    step by step, and is proved to have exactly the effect of its specification. */
module Store {
  import opened Wrappers
  import opened TaskState
  import opened Rows
  import opened Transactions
  import opened StoreSpec
  import opened ForgeInbox
  import opened StoreInvariant
  import opened StoreSteps
  import opened StoreResets
  import opened StoreRuns
  import opened Deferral

  // ------------------------------------------------------------ reads over batches

  method ValidateForgeEventIds(ids: seq<ForgeEventId>) returns (ok: bool)
    ensures ok <==> ValidIds(ids)
  {
    if |ids| == 0 || |ids| > BATCH_SIZE {
      return false;
    }
    var seen: set<ForgeEventId> := {};
    for i := 0 to |ids|
      invariant forall id :: id in seen <==> id in ids[..i]
      invariant Distinct(ids[..i])
    {
      if ids[i] in seen {
        return false;
      }
      seen := seen + {ids[i]};
      assert ids[..i + 1] == ids[..i] + [ids[i]];
    }
    assert ids[..|ids|] == ids;
    return true;
  }

  method ReadForgeEventsByIds(db: Db, ids: seq<ForgeEventId>) returns (events: Option<seq<ForgeEvent>>)
    ensures events.Some? <==> Present(db, ids)
    ensures events.Some? ==> |events.value| == |ids| && forall i | 0 <= i < |ids| :: events.value[i] == db.inbox[ids[i]]
  {
    var rows: seq<ForgeEvent> := [];
    for i := 0 to |ids|
      invariant |rows| == i && forall j | 0 <= j < i :: ids[j] in db.inbox && rows[j] == db.inbox[ids[j]]
    {
      if ids[i] !in db.inbox {
        return None;
      }
      rows := rows + [db.inbox[ids[i]]];
    }
    return Some(rows);
  }

  /** The two scans of `validateForgeEventOutcomeBatch`, then the count of the
      association. */
  method ValidateForgeEventOutcomeBatch(db: Db, ids: seq<ForgeEventId>, now: int) returns (r: Result<BatchOutcome>)
    requires ids != [] && Present(db, ids)
    ensures r == ValidateOutcome(db, ids, now)
  {
    var first := db.inbox[ids[0]];
    if first.kind != ReviewComment && |ids| != 1 {
      return Err(Conflict);
    }
    for i := 1 to |ids|
      invariant forall j | 1 <= j < i :: db.inbox[ids[j]].kind == ReviewComment && SameBatch(first, db.inbox[ids[j]])
    {
      var e := db.inbox[ids[i]];
      if e.kind != ReviewComment || !SameBatch(first, e) {
        return Err(Conflict);
      }
    }
    assert OneBatch(db, ids);
    for i := 0 to |ids|
      invariant forall j | 0 <= j < i ::
        var e := db.inbox[ids[j]];
        e.status == first.status && e.task == first.task && e.attempt == first.attempt && (first.status == EventPending ==> Due(e, now))
    {
      var e := db.inbox[ids[i]];
      if e.status != first.status || e.task != first.task || e.attempt != first.attempt || (first.status == EventPending && !Due(e, now)) {
        return Err(Conflict);
      }
    }
    if first.status == EventPending {
      return if Unassociated(first) then Ok(PendingBatch) else Err(Conflict);
    }
    if first.status != EventRunning || first.task.None? || first.attempt.None? {
      return Err(Conflict);
    }
    var t, a := first.task.value, first.attempt.value;
    if !Owns(db, t, a) || |RunningFor(db, t, a)| != |ids| {
      return Err(Conflict);
    }
    return Ok(RunningBatch(t, a));
  }

  /** The pacing loop: the longest earned pause and the largest retry count. */
  method PaceBatch(db: Db, ids: seq<ForgeEventId>, floor: int, shift: nat) returns (delay: int, largest: nat)
    requires Present(db, ids) && forall id | id in ids :: db.inbox[id].attempts >= shift
    ensures delay == BatchDelay(db, ids, floor, shift) && largest == LargestAttempts(db, ids)
  {
    delay, largest := floor, 0;
    for i := 0 to |ids|
      invariant delay == BatchDelay(db, ids[..i], floor, shift) && largest == LargestAttempts(db, ids[..i])
    {
      assert ids[..i + 1][..i] == ids[..i];
      var attempts := db.inbox[ids[i]].attempts;
      var own := ComputeRetryDelay(attempts - shift);
      delay := Max(delay, own);
      largest := Max(largest, attempts);
    }
    assert ids[..|ids|] == ids;
  }

  method ForgeEventBatchDeferralReplay(db: Db, ids: seq<ForgeEventId>, message: string, retryAfter: int, now: int) returns (r: Replay)
    requires ids != [] && Present(db, ids)
    ensures r == DeferralReplay(db, ids, message, retryAfter, now)
  {
    hide BatchDelay, RetryDelay;
    var first := db.inbox[ids[0]];
    if !Incomplete(first) || first.attempts == 0 || first.lastError != message || Due(first, now) {
      return NotReplay;
    }
    var associated := first.status == EventRunning && first.task.Some? && first.attempt.Some?;
    if (first.status == EventPending && !Unassociated(first)) || (first.status == EventRunning && !associated) {
      return ReplayConflict;
    }
    for i := 1 to |ids|
      invariant forall j | 1 <= j < i :: DeferredLike(db.inbox[ids[j]], first, message)
    {
      if !DeferredLike(db.inbox[ids[i]], first, message) {
        return if associated then NotReplay else ReplayConflict;
      }
    }
    forall id | id in ids ensures db.inbox[id].attempts >= 1 {
      var i :| 0 <= i < |ids| && ids[i] == id;
      assert i == 0 || DeferredLike(db.inbox[ids[i]], first, message);
    }
    var delay, _ := PaceBatch(db, ids, retryAfter, 1);
    assert delay == ReplayDelay(db, ids, retryAfter);
    if first.nextAttempt != Some(first.updatedAt + delay) {
      return if associated then NotReplay else ReplayConflict;
    }
    if associated && !Owns(db, first.task.value, first.attempt.value) {
      return ReplayConflict;
    }
    var count := if associated then |RunningFor(db, first.task.value, first.attempt.value)|
                 else |DeferredTogether(db, message, first.updatedAt, first.nextAttempt.value)|;
    return if count == |ids| then IsReplay else ReplayConflict;
  }

  /** The scan of `validateForgeEventBatch`. */
  method ValidateForgeEventBatch(db: Db, ids: seq<ForgeEventId>, t: TaskId, now: int) returns (r: Result<Option<AttemptId>>)
    requires ids != [] && Present(db, ids)
    ensures r == ValidateBatch(db, ids, t, now)
  {
    var first := db.inbox[ids[0]];
    if first.kind != ReviewComment && |ids| != 1 {
      return Err(Conflict);
    }
    for i := 1 to |ids|
      invariant forall j | 1 <= j < i :: db.inbox[ids[j]].kind == ReviewComment && SameBatch(first, db.inbox[ids[j]])
    {
      var e := db.inbox[ids[i]];
      if e.kind != ReviewComment || !SameBatch(first, e) {
        return Err(Conflict);
      }
    }
    assert OneBatch(db, ids);
    if first.status == EventRunning {
      for i := 0 to |ids|
        invariant forall j | 0 <= j < i ::
          var e := db.inbox[ids[j]];
          e.status == EventRunning && e.task == Some(t) && e.attempt.Some? && e.attempt == first.attempt
      {
        var e := db.inbox[ids[i]];
        if e.status != EventRunning || e.task != Some(t) || e.attempt.None? || e.attempt != first.attempt {
          return Err(Conflict);
        }
      }
      return Ok(first.attempt);
    }
    for i := 0 to |ids|
      invariant CheckPending(db, ids, now) == CheckPending(db, ids[i..], now)
    {
      var e := db.inbox[ids[i]];
      assert ids[i..][1..] == ids[i + 1..];
      if e.status != EventPending || !Unassociated(e) {
        return Err(Conflict);
      }
      if !Due(e, now) {
        return Err(NotDue);
      }
    }
    return Ok(None);
  }

  method ForgeEventBatchFailureReplay(db: Db, ids: seq<ForgeEventId>, message: string) returns (r: Replay)
    requires ids != [] && Present(db, ids)
    ensures r == FailureReplay(db, ids, message)
  {
    hide FailedTogether;
    var first := db.inbox[ids[0]];
    if first.status != EventFailed || first.failedAt.None? || first.lastError != message || first.nextAttempt.Some? {
      return NotReplay;
    }
    if first.task.Some? != first.attempt.Some? {
      return ReplayConflict;
    }
    for i := 1 to |ids|
      invariant forall j | 1 <= j < i :: FailedLike(db.inbox[ids[j]], first, message)
    {
      if !FailedLike(db.inbox[ids[i]], first, message) {
        return ReplayConflict;
      }
    }
    if first.task.Some? && !Owns(db, first.task.value, first.attempt.value) {
      return ReplayConflict;
    }
    return if |FailedTogether(db, first, message)| == |ids| then IsReplay else ReplayConflict;
  }

  // ------------------------------------------------------------------- the object

  /** A transaction either commits exactly what was specified or changes nothing. */
  ghost predicate Committed(before: Db, spec: Result<Db>, after: Db, error: Option<Error>) {
    match spec
    case Ok(db) => after == db && error == None
    case Err(e) => after == before && error == Some(e)
  }

  ghost predicate CommittedStart(before: Db, spec: Result<Started>, after: Db, started: Result<(nat, bool)>) {
    match spec
    case Ok(s) => after == s.db && started == Ok((s.id, s.inserted))
    case Err(e) => after == before && started == Err(e)
  }

  /** Whether the transaction commits or not, the invariant holds afterwards. */
  ghost predicate Safe(before: Db, spec: Result<Db>, now: int) {
    Inv(if spec.Ok? then spec.value else before, now)
  }

  lemma Commits(db: Db, clock: int, op: Op, now: int)
    requires Inv(db, clock) && clock < now && Disciplined(db, op)
    ensures Safe(db, Apply(db, op, now), now)
  {
    hide Inv, Advances, Apply, Disciplined;
    StepKeeps(db, clock, op, now);
  }

  lemma RetryCommits(db: Db, clock: int, t: TaskId, key: Key, plan: Option<Plan>, newId: AttemptId, now: int)
    requires Inv(db, clock) && clock < now
    ensures Safe(db, TablesOf(RetryTaskOnce(db, t, key, plan, newId, now)), now)
  {
    hide Inv, Safe, RetryTaskOnce;
    Commits(db, clock, Retry(t, key, plan, newId), now);
  }

  /** The rows an accepted transition leaves. */
  function Moved(v: View, to: State, a: AttemptRow): View {
    View(v.task.(state := to, cancel := to != Cancelled && v.task.cancel, log := v.task.log + [AuditEvent(v.task.current, v.task.state, to)]), a)
  }

  lemma TransitionView(v: View, from: State, to: State, change: ValidationChange)
    requires CanTransition(from, to)
    ensures var tx, validated := Transition(v, from, to, change), ApplyValidation(v.attempt.(state := to), change);
            if v.task.state != from || (v.task.cancel && to != Cancelled) || ((to == PrOpen || to == Ready) && !PullRequestGate(v.attempt))
            then tx == Err(Conflict)
            else if validated.Err? then tx == Err(validated.error)
            else tx == Ok(Moved(v, to, validated.value))
  {
    hide CanTransition, ApplyValidation, PullRequestGate;
  }

  /** What the specified transition does, guard by guard. */
  lemma TransitionRefused(db: Db, t: TaskId, from: State, to: State, change: ValidationChange)
    ensures !CanTransition(from, to) ==> StoreSpec.TransitionTask(db, t, from, to, change) == Err(Invalid)
    ensures CanTransition(from, to) && t !in db.tasks ==> StoreSpec.TransitionTask(db, t, from, to, change) == Err(NotFound)
  {
  }

  /** A task whose current attempt is missing. */
  lemma TransitionLost(db: Db, t: TaskId, from: State, to: State, change: ValidationChange)
    requires CanTransition(from, to) && t in db.tasks && db.tasks[t].current !in db.attempts
    ensures StoreSpec.TransitionTask(db, t, from, to, change) == Err(Conflict)
  {
  }

  lemma TransitionEffect(db: Db, t: TaskId, from: State, to: State, change: ValidationChange)
    requires CanTransition(from, to) && t in db.tasks && db.tasks[t].current in db.attempts
    ensures StoreSpec.TransitionTask(db, t, from, to, change) == PutResult(db, t, Transition(ViewOf(db, t), from, to, change))
  {
    hide CanTransition, Transition;
  }

  lemma MoveCommits(db: Db, clock: int, t: TaskId, from: State, to: State, change: ValidationChange, now: int)
    requires Inv(db, clock) && clock < now
    ensures Safe(db, StoreSpec.TransitionTask(db, t, from, to, change), now)
  {
    hide Inv, Safe, StoreSpec.TransitionTask;
    Commits(db, clock, Move(t, from, to, change), now);
  }

  lemma CreateCommits(db: Db, clock: int, key: Key, repository: string, prompt: string, newTask: TaskId, newAttempt: AttemptId, now: int)
    requires Inv(db, clock) && clock < now
    ensures Safe(db, TablesOf(CreateTaskOnce(db, key, repository, prompt, newTask, newAttempt)), now)
  {
    hide Inv, Safe, CreateTaskOnce;
    Commits(db, clock, Create(key, repository, prompt, newTask, newAttempt), now);
  }

  lemma CancelCommits(db: Db, clock: int, t: TaskId, now: int)
    requires Inv(db, clock) && clock < now
    ensures Safe(db, CancelTask(db, t), now)
  {
    hide Inv, Safe, CancelTask;
    Commits(db, clock, Cancel(t), now);
  }

  lemma CandidateCommits(db: Db, clock: int, a: AttemptId, git: GitRow, pr: PrRow, now: int)
    requires Inv(db, clock) && clock < now && IsCurrent(db, a)
    ensures Safe(db, RecordCandidate(db, a, git, pr), now)
  {
    hide Inv, Safe, RecordCandidate;
    Commits(db, clock, ReportCandidate(a, git, pr), now);
  }

  lemma VerifiedCommits(db: Db, clock: int, a: AttemptId, git: GitRow, pr: PrRow, metadataValid: bool, now: int)
    requires Inv(db, clock) && clock < now && IsCurrent(db, a)
    ensures Safe(db, RecordVerified(db, a, git, pr, metadataValid), now)
  {
    hide Inv, Safe, RecordVerified;
    Commits(db, clock, Verify(a, git, pr, metadataValid), now);
  }

  lemma AppendCommits(db: Db, clock: int, t: TaskId, a: AttemptId, event: Option<WorkerEventId>, truncates: bool, now: int)
    requires Inv(db, clock) && clock < now
    ensures Safe(db, AppendLine(db, t, a, event, truncates), now)
  {
    hide Inv, Safe, AppendLine;
    Commits(db, clock, Append(t, a, event, truncates), now);
  }

  lemma AcceptCommits(db: Db, clock: int, id: ForgeEventId, kind: Kind, at: Coordinates, delay: int, now: int)
    requires Inv(db, clock) && clock < now
    ensures Safe(db, PutEvent(db, id, kind, at, delay, now), now)
  {
    hide Inv, Safe, PutEvent;
    Commits(db, clock, Accept(id, kind, at, delay), now);
  }

  lemma BatchErrorCommits(db: Db, clock: int, ids: seq<ForgeEventId>, message: string, after: int, now: int)
    requires Inv(db, clock) && clock < now
    ensures Safe(db, RecordBatchError(db, ids, message, after, now), now)
  {
    hide Inv, Safe, RecordBatchError;
    Commits(db, clock, ErrorOfBatch(ids, message, after), now);
  }

  lemma FailCommits(db: Db, clock: int, id: ForgeEventId, message: string, now: int)
    requires Inv(db, clock) && clock < now
    ensures Safe(db, FailEvent(db, id, message, now), now)
  {
    hide Inv, Safe, FailEvent;
    Commits(db, clock, Fail(id, message), now);
  }

  lemma FailBatchCommits(db: Db, clock: int, ids: seq<ForgeEventId>, message: string, now: int)
    requires Inv(db, clock) && clock < now
    ensures Safe(db, FailBatch(db, ids, message, now), now)
  {
    hide Inv, Safe, FailBatch;
    Commits(db, clock, FailAll(ids, message), now);
  }

  lemma HandledCommits(db: Db, clock: int, id: ForgeEventId, now: int)
    requires Inv(db, clock) && clock < now
    ensures Safe(db, MarkHandled(db, id, now), now)
  {
    hide Inv, Safe, MarkHandled;
    Commits(db, clock, Handled(id), now);
  }

  lemma FollowUpCommits(db: Db, clock: int, ids: seq<ForgeEventId>, plan: Plan, now: int)
    requires Inv(db, clock) && clock < now
    ensures Safe(db, TablesOf(StartFollowUp(db, ids, plan, now)), now)
  {
    hide Inv, Safe, StartFollowUp;
    Commits(db, clock, FollowUp(ids, plan), now);
  }

  lemma StartRunCommits(db: Db, clock: int, t: TaskId, a: AttemptId, name: string, summary: string, event: Option<WorkerEventId>, now: int)
    requires Inv(db, clock) && clock < now
    ensures Safe(db, StartCommand(db, t, a, name, summary, event), now)
  {
    hide Inv, Safe, StartCommand;
    Commits(db, clock, StartRunOf(t, a, name, summary, event), now);
  }

  lemma FinishRunCommits(db: Db, clock: int, t: TaskId, a: AttemptId, name: string, summary: string, exit: int, event: Option<WorkerEventId>, now: int)
    requires Inv(db, clock) && clock < now
    ensures Safe(db, FinishCommand(db, t, a, name, summary, exit, event), now)
  {
    hide Inv, Safe, FinishCommand;
    Commits(db, clock, FinishRunOf(t, a, name, summary, exit, event), now);
  }

  lemma CompleteCommits(db: Db, clock: int, t: TaskId, a: AttemptId, state: ValidationState, now: int)
    requires Inv(db, clock) && clock < now
    ensures Safe(db, CompleteValidation(db, t, a, state), now)
  {
    hide Inv, Safe, CompleteValidation;
    Commits(db, clock, Complete(t, a, state), now);
  }

  lemma DetailCommits(db: Db, clock: int, a: AttemptId, name: string, detail: string, exit: int, now: int)
    requires Inv(db, clock) && clock < now
    ensures Safe(db, DetailValidation(db, a, name, detail, exit), now)
  {
    hide Inv, Safe, DetailValidation;
    Commits(db, clock, Detail(a, name, detail, exit), now);
  }

  lemma SnapshotCommits(db: Db, clock: int, t: TaskId, a: AttemptId, m: Manifest, now: int)
    requires Inv(db, clock) && clock < now
    ensures Safe(db, SaveSnapshot(db, t, a, m), now)
  {
    hide Inv, Safe, SaveSnapshot;
    Commits(db, clock, Snapshot(t, a, m), now);
  }

  lemma YieldCommits(db: Db, clock: int, id: ForgeEventId, expected: EventStatus, now: int)
    requires Inv(db, clock) && clock < now
    ensures Safe(db, Defer(db, id, expected, now), now)
  {
    hide Inv, Safe, Defer;
    Commits(db, clock, Yield(id, expected), now);
  }

  lemma ErrorCommits(db: Db, clock: int, id: ForgeEventId, message: string, after: int, now: int)
    requires Inv(db, clock) && clock < now
    ensures Safe(db, RecordError(db, id, message, after, now), now)
  {
    hide Inv, Safe, RecordError;
    Commits(db, clock, ErrorOf(id, message, after), now);
  }

  class Store {
    var tasks: map<TaskId, TaskRow>
    var attempts: map<AttemptId, AttemptRow>
    var inbox: map<ForgeEventId, ForgeEvent>
    var outbox: map<WorkerEventId, WorkerEventRow>
    var createIntents: map<Key, TaskId>
    var retryIntents: map<(TaskId, Key), AttemptId>
    ghost var clock: int

    function Tables(): Db
      reads this
    {
      Db(tasks, attempts, inbox, outbox, createIntents, retryIntents)
    }

    ghost predicate Valid()
      reads this
    {
      Inv(Tables(), clock)
    }

    constructor (ghost start: int)
      ensures Valid() && Tables() == EMPTY && clock == start
    {
      tasks, attempts, inbox, outbox, createIntents, retryIntents := map[], map[], map[], map[], map[], map[];
      clock := start;
      new;
      EmptyIsValid(start);
    }

    /** `CreateTaskOnce`. */
    method CreateTask(key: Key, repository: string, prompt: string, newTask: TaskId, newAttempt: AttemptId, ghost now: int) returns (r: Result<(nat, bool)>)
      requires Valid() && clock < now
      modifies this
      ensures Valid() && clock == now
      ensures CommittedStart(old(Tables()), CreateTaskOnce(old(Tables()), key, repository, prompt, newTask, newAttempt), Tables(), r)
    {
      hide Inv, Advances, Step, Apply, Blank;
      CreateCommits(Tables(), clock, key, repository, prompt, newTask, newAttempt, now);
      clock := now;
      if (key != "" && Blank(key)) || Blank(repository) || Blank(prompt) {
        return Err(Invalid);
      }
      if key != "" && key in createIntents {
        return if createIntents[key] in tasks then Ok((createIntents[key], false)) else Err(NotFound);
      }
      if newTask in tasks || newAttempt in attempts {
        return Err(Conflict);
      }
      tasks := tasks[newTask := TaskRow(Received, newAttempt, false, [])];
      attempts := attempts[newAttempt := BlankAttempt(newTask)];
      if key != "" {
        createIntents := createIntents[key := newTask];
      }
      assert Tables() == CreateTaskOnce(old(Tables()), key, repository, prompt, newTask, newAttempt).value.db;
      return Ok((newTask, true));
    }

    /** `Transition`: the only way, besides a reset, that a task changes state. */
    method TransitionTask(t: TaskId, from: State, to: State, change: ValidationChange, ghost now: int) returns (error: Option<Error>)
      requires Valid() && clock < now
      modifies this
      ensures Valid() && clock == now
      ensures Committed(old(Tables()), StoreSpec.TransitionTask(old(Tables()), t, from, to, change), Tables(), error)
    {
      hide Inv, Advances, Step, Apply, StoreSpec.TransitionTask, Transition, CanTransition, ApplyValidation, PullRequestGate;
      MoveCommits(Tables(), clock, t, from, to, change, now);
      clock := now;
      TransitionRefused(Tables(), t, from, to, change);
      if !CanTransition(from, to) {
        return Some(Invalid);
      }
      if t !in tasks {
        return Some(NotFound);
      }
      var r := tasks[t];
      if r.current !in attempts {
        TransitionLost(Tables(), t, from, to, change);
        return Some(Conflict);
      }
      TransitionEffect(Tables(), t, from, to, change);
      TransitionView(ViewOf(Tables(), t), from, to, change);
      if r.state != from || (r.cancel && to != Cancelled) {
        return Some(Conflict);
      }
      var a := attempts[r.current];
      if (to == PrOpen || to == Ready) && !PullRequestGate(a) {
        return Some(Conflict);
      }
      var validated := ApplyValidation(a.(state := to), change);
      if validated.Err? {
        return Some(validated.error);
      }
      attempts := attempts[r.current := validated.value];
      tasks := tasks[t := r.(state := to, cancel := to != Cancelled && r.cancel, log := r.log + [AuditEvent(r.current, from, to)])];
      return None;
    }

    /** `RequestCancellation`. */
    method RequestCancellation(t: TaskId, ghost now: int) returns (error: Option<Error>)
      requires Valid() && clock < now
      modifies this
      ensures Valid() && clock == now
      ensures Committed(old(Tables()), CancelTask(old(Tables()), t), Tables(), error)
      ensures error == None <==> t in old(tasks) && !Terminal(old(tasks)[t].state)
      ensures error == None ==> tasks == old(tasks)[t := old(tasks)[t].(cancel := true)]
    {
      hide Inv, Advances, Step, Apply;
      CancelCommits(Tables(), clock, t, now);
      clock := now;
      if t !in tasks {
        return Some(NotFound);
      }
      if Terminal(tasks[t].state) {
        return Some(Invalid);
      }
      tasks := tasks[t := tasks[t].(cancel := true)];
      return None;
    }

    /** `RecordValidationStartedOnce`. */
    method RecordValidationStarted(t: TaskId, a: AttemptId, name: string, summary: string, event: Option<WorkerEventId>, ghost now: int) returns (error: Option<Error>)
      requires Valid() && clock < now
      modifies this
      ensures Valid() && clock == now
      ensures Committed(old(Tables()), StartCommand(old(Tables()), t, a, name, summary, event), Tables(), error)
    {
      hide Inv, Advances, Step, Apply, Blank, HasRunning;
      StartRunCommits(Tables(), clock, t, a, name, summary, event, now);
      clock := now;
      if StartedAnywhere(Tables(), event) {
        return None;
      }
      if t !in tasks {
        return Some(NotFound);
      }
      if tasks[t].current != a || a !in attempts || tasks[t].state != Validating {
        return Some(Conflict);
      }
      assert !StartedBy(attempts[a].runs, event);
      var row := attempts[a];
      if Blank(name) {
        return Some(Invalid);
      }
      if HasRunning(row.runs) {
        return Some(Conflict);
      }
      attempts := attempts[a := row.(runs := row.runs + [ValidationRun(name, RunRunning, summary, "", None, event, None)])];
      assert tasks[t := tasks[t]] == tasks;
      return None;
    }

    /** `RecordValidationResultOnce`. */
    method RecordValidationResult(t: TaskId, a: AttemptId, name: string, summary: string, exit: int, event: Option<WorkerEventId>, ghost now: int) returns (error: Option<Error>)
      requires Valid() && clock < now
      modifies this
      ensures Valid() && clock == now
      ensures Committed(old(Tables()), FinishCommand(old(Tables()), t, a, name, summary, exit, event), Tables(), error)
    {
      hide Inv, Advances, Step, Apply;
      FinishRunCommits(Tables(), clock, t, a, name, summary, exit, event, now);
      clock := now;
      if FinishedAnywhere(Tables(), event) {
        return None;
      }
      if t !in tasks {
        return Some(NotFound);
      }
      if tasks[t].current != a || a !in attempts || tasks[t].state != Validating {
        return Some(Conflict);
      }
      assert !FinishedBy(attempts[a].runs, event);
      var row := attempts[a];
      var i := FirstRunning(row.runs);
      if i == |row.runs| || row.runs[i].name != name {
        return Some(Conflict);
      }
      var outcome, failure := RunSucceeded, "";
      if exit != 0 {
        outcome, failure := RunFailed, summary;
      }
      var done := row.runs[i].(state := outcome, summary := summary, error := failure, exitCode := Some(exit), resultEvent := event);
      attempts := attempts[a := row.(runs := row.runs[i := done])];
      assert tasks[t := tasks[t]] == tasks;
      return None;
    }

    /** `MarkValidationComplete`. */
    method MarkValidationComplete(t: TaskId, a: AttemptId, state: ValidationState, ghost now: int) returns (error: Option<Error>)
      requires Valid() && clock < now
      modifies this
      ensures Valid() && clock == now
      ensures Committed(old(Tables()), CompleteValidation(old(Tables()), t, a, state), Tables(), error)
    {
      hide Inv, Advances, Step, Apply;
      CompleteCommits(Tables(), clock, t, a, state, now);
      clock := now;
      if state == NotValidated {
        return Some(Invalid);
      }
      if !Owns(Tables(), t, a) || HasRunning(attempts[a].runs) || attempts[a].runs == [] {
        return Some(Conflict);
      }
      attempts := attempts[a := attempts[a].(validation := state)];
      return None;
    }

    /** `RecordValidationFailureDetail`. */
    method RecordValidationFailureDetail(a: AttemptId, name: string, detail: string, exit: int, ghost now: int) returns (error: Option<Error>)
      requires Valid() && clock < now
      modifies this
      ensures Valid() && clock == now
      ensures Committed(old(Tables()), DetailValidation(old(Tables()), a, name, detail, exit), Tables(), error)
    {
      hide Inv, Advances, Step, Apply;
      DetailCommits(Tables(), clock, a, name, detail, exit, now);
      clock := now;
      if a !in attempts {
        return Some(Conflict);
      }
      var row := attempts[a];
      var i := LatestFailed(row.runs, name, exit);
      if i < 0 {
        return Some(Conflict);
      }
      attempts := attempts[a := row.(runs := row.runs[i := row.runs[i].(summary := detail, error := detail)])];
      return None;
    }

    /** `SaveAttemptSnapshot`. */
    method SaveAttemptSnapshot(t: TaskId, a: AttemptId, m: Manifest, ghost now: int) returns (error: Option<Error>)
      requires Valid() && clock < now
      modifies this
      ensures Valid() && clock == now
      ensures Committed(old(Tables()), SaveSnapshot(old(Tables()), t, a, m), Tables(), error)
    {
      hide Inv, Advances, Step, Apply;
      SnapshotCommits(Tables(), clock, t, a, m, now);
      clock := now;
      if !Owns(Tables(), t, a) {
        return Some(NotFound);
      }
      if attempts[a].manifest.Some? {
        assert attempts[a := attempts[a]] == attempts;
        return if attempts[a].manifest.value == m then None else Some(Conflict);
      }
      attempts := attempts[a := attempts[a].(manifest := Some(m))];
      return None;
    }

    /** `RecordPullRequestCandidate`, called under the task lock for the current attempt. */
    method RecordPullRequestCandidate(a: AttemptId, git: GitRow, pr: PrRow, ghost now: int) returns (error: Option<Error>)
      requires Valid() && clock < now && IsCurrent(Tables(), a)
      modifies this
      ensures Valid() && clock == now
      ensures Committed(old(Tables()), RecordCandidate(old(Tables()), a, git, pr), Tables(), error)
    {
      hide Inv, Advances, Step, Apply, PriorPullRequest, FullGitObjectId, Blank;
      CandidateCommits(Tables(), clock, a, git, pr, now);
      var row := attempts[a];
      clock := now;
      if git.state != Candidate || Blank(git.branch) || !FullGitObjectId(git.sha) {
        return Some(Invalid);
      }
      if pr.state != Reported || pr.number == 0 || pr.url != "" || pr.title != "" || pr.head != git.branch || Blank(pr.base) {
        return Some(Conflict);
      }
      var identity := BranchIdentity(row);
      if identity.Err? {
        return Some(identity.error);
      }
      var id := identity.value;
      if id.base == "" || id.head == "" || git.branch != id.head || pr.head != id.head || pr.base != id.base {
        return Some(Conflict);
      }
      if PushedGit(row) {
        var same := row.pr.Some? && row.git.value.branch == git.branch && row.git.value.sha == git.sha
                    && OpenPr(row) && row.pr.value.number == pr.number && SameBranches(row.pr.value, pr);
        assert same ==> attempts[a := row] == attempts;
        return if same then None else Some(Conflict);
      }
      if row.git.Some? && row.git.value.branch != git.branch {
        return Some(Conflict);
      }
      var prior := PriorPullRequest(Tables(), a, pr.head, pr.base);
      if prior.PriorClash? {
        return Some(Conflict);
      }
      if prior.PriorNumber? {
        if !OpenPr(row) || row.pr.value.number != prior.n || row.pr.value.number != pr.number || !SameBranches(row.pr.value, pr) {
          return Some(Conflict);
        }
      } else if row.pr.Some? {
        if row.pr.value.state != Reported || row.pr.value.number != pr.number || row.pr.value.url != "" || row.pr.value.title != ""
           || !SameBranches(row.pr.value, pr) {
          return Some(Conflict);
        }
      } else {
        attempts := attempts[a := row.(pr := Some(pr))];
      }
      attempts := attempts[a := attempts[a].(git := Some(git))];
      assert Tables() == RecordCandidate(old(Tables()), a, git, pr).value;
      return None;
    }

    /** `RecordVerifiedPullRequest`, called under the task lock for the current attempt. */
    method RecordVerifiedPullRequest(a: AttemptId, git: GitRow, pr: PrRow, metadataValid: bool, ghost now: int) returns (error: Option<Error>)
      requires Valid() && clock < now && IsCurrent(Tables(), a)
      modifies this
      ensures Valid() && clock == now
      ensures Committed(old(Tables()), RecordVerified(old(Tables()), a, git, pr, metadataValid), Tables(), error)
    {
      hide Inv, Advances, Step, Apply, FullGitObjectId, Blank, BranchIdentity;
      VerifiedCommits(Tables(), clock, a, git, pr, metadataValid, now);
      var row := attempts[a];
      clock := now;
      if git.state != Pushed || Blank(git.branch) || !FullGitObjectId(git.sha) {
        return Some(Invalid);
      }
      if pr.state != Open || pr.number == 0 || Blank(pr.url) || Blank(pr.title) || pr.head != git.branch || Blank(pr.base) || !metadataValid {
        return Some(Conflict);
      }
      var identity := BranchIdentity(row);
      if identity.Err? {
        return Some(identity.error);
      }
      if git.branch != identity.value.head || pr.head != identity.value.head || pr.base != identity.value.base {
        return Some(Conflict);
      }
      if PushedGit(row) {
        assert attempts[a := row] == attempts;
        return if row.pr.Some? && row.git.value == git && row.pr.value == pr then None else Some(Conflict);
      }
      if row.git.None? || row.pr.None? || row.git.value.branch != git.branch || row.git.value.sha != git.sha
         || row.pr.value.number != pr.number || !SameBranches(row.pr.value, pr) {
        return Some(Conflict);
      }
      attempts := attempts[a := row.(pr := Some(pr))];
      attempts := attempts[a := attempts[a].(git := Some(git))];
      assert Tables() == RecordVerified(old(Tables()), a, git, pr, metadataValid).value;
      return None;
    }

    /** `AppendPodLog` outside the log chunks. */
    method AppendPodLog(t: TaskId, a: AttemptId, event: Option<WorkerEventId>, truncates: bool, ghost now: int) returns (error: Option<Error>)
      requires Valid() && clock < now
      modifies this
      ensures Valid() && clock == now
      ensures Committed(old(Tables()), AppendLine(old(Tables()), t, a, event, truncates), Tables(), error)
    {
      hide Inv, Advances, Step, Apply;
      AppendCommits(Tables(), clock, t, a, event, truncates, now);
      clock := now;
      if a !in attempts || attempts[a].task != t {
        return Some(NotFound);
      }
      if t !in tasks || tasks[t].current != a || attempts[a].logsExhausted {
        return Some(Conflict);
      }
      if truncates {
        tasks := tasks[t := tasks[t].(log := tasks[t].log + [AuditEvent(a, attempts[a].state, attempts[a].state)])];
      }
      if event.Some? && event.value !in outbox {
        outbox := outbox[event.value := WorkerEventRow(t, a, false)];
      }
      return None;
    }

    /** `retryTaskOnce`. */
    method RetryTask(t: TaskId, key: Key, plan: Option<Plan>, newId: AttemptId, now: int) returns (r: Result<(nat, bool)>)
      requires Valid() && clock < now
      modifies this
      ensures Valid() && clock == now
      ensures CommittedStart(old(Tables()), RetryTaskOnce(old(Tables()), t, key, plan, newId, now), Tables(), r)
    {
      hide Inv, Advances, Step, Apply, NextNumber, RunningFor, HasPendingWorkerEvents, Rebound, CanRetry, Reset;
      RetryCommits(Tables(), clock, t, key, plan, newId, now);
      clock := now;
      if key != "" && (t, key) in retryIntents {
        return Ok((retryIntents[(t, key)], false));
      }
      if t !in tasks || tasks[t].current !in attempts {
        return Err(NotFound);
      }
      var row := tasks[t];
      var current := attempts[row.current];
      if !CanRetry(row.state, Queued) {
        return Err(Invalid);
      }
      if HasPendingWorkerEvents(Tables(), t, row.current) || !current.logsExhausted {
        return Err(Conflict);
      }
      var running := RunningFor(Tables(), t, row.current);
      var carried := Carried("", "", "", None);
      if running != {} {
        if !OpenPr(current) {
          return Err(Conflict);
        }
        carried := Carried(current.prompt, current.pr.value.base, current.pr.value.head, current.pr);
      }
      var number := NextNumber(Tables(), t);
      var id, manifest := newId, None;
      if plan.None? {
        if running != {} {
          return Err(Conflict);
        }
      } else {
        var p := plan.value;
        if p.previous != row.current || p.task != t || p.number != number || p.prompt != carried.prompt
           || p.baseBranch != carried.base || p.taskBranch != carried.branch || p.manifest.None? {
          return Err(Conflict);
        }
        id, manifest := p.attempt, p.manifest;
      }
      if id in attempts {
        return Err(Conflict);
      }
      var copy := QueuedAttempt(t, number, carried.prompt, carried.base, carried.branch, manifest, carried.pr);
      WriteRetryAttempt(t, id, copy, key, now);
      return Ok((id, true));
    }

    /** The rows of an accepted retry: the attempt, the rebound batch, the reset task. */
    method WriteRetryAttempt(t: TaskId, id: AttemptId, row: AttemptRow, key: Key, now: int)
      requires t in tasks && id !in attempts
      modifies this
      ensures clock == old(clock)
      ensures Tables() == Reset(old(Tables()), t, id, row, false, Rebound(old(inbox), t, old(tasks[t].current), id, now), key)
    {
      var was := tasks[t];
      attempts := attempts[id := row];
      inbox := Rebound(inbox, t, was.current, id, now);
      tasks := tasks[t := was.(state := Queued, current := id, cancel := false, log := was.log + [AuditEvent(id, was.state, Queued)])];
      if key != "" {
        retryIntents := retryIntents[(t, key) := id];
      }
    }

    /** `StartForgeEventAttempt`. */
    method StartForgeEventAttempt(ids: seq<ForgeEventId>, plan: Plan, now: int) returns (r: Result<(nat, bool)>)
      requires Valid() && clock < now
      modifies this
      ensures Valid() && clock == now
      ensures CommittedStart(old(Tables()), StartFollowUp(old(Tables()), ids, plan, now), Tables(), r)
    {
      hide Inv, Advances, Step, Apply, NextNumber, HasPendingWorkerEvents, RunningOf, OneBatch, ValidIds, Blank, ValidateBatch, FollowUpTarget, FollowUpTables;
      FollowUpCommits(Tables(), clock, ids, plan, now);
      clock := now;
      var valid := ValidateForgeEventIds(ids);
      if !valid {
        return Err(Invalid);
      }
      var events := ReadForgeEventsByIds(Tables(), ids);
      if events.None? {
        return Err(NotFound);
      }
      assert ids != [] by { IdsAreNonempty(ids); }
      var t := plan.task;
      var batch := ValidateForgeEventBatch(Tables(), ids, t, now);
      if batch.Err? {
        return Err(batch.error);
      }
      if batch.value.Some? {
        var a := batch.value.value;
        if !Owns(Tables(), t, a) {
          return Err(NotFound);
        }
        return if attempts[a].manifest.None? then Err(Conflict) else Ok((a, false));
      }
      if plan.number == 0 || Blank(plan.prompt) {
        return Err(Invalid);
      }
      if plan.manifest.None? {
        return Err(Conflict);
      }
      var target := FollowUpTarget(Tables(), t, plan);
      if target.Err? {
        return Err(target.error);
      }
      if plan.number != NextNumber(Tables(), t) || plan.attempt in attempts {
        return Err(Conflict);
      }
      assert t in tasks by { TargetExists(Tables(), t, plan); }
      WriteForgeFollowUpAttempt(ids, plan, target.value, now);
      return Ok((plan.attempt, true));
    }

    /** `writeForgeFollowUpAttempt`: the rows of an accepted follow-up. */
    method WriteForgeFollowUpAttempt(ids: seq<ForgeEventId>, plan: Plan, pr: PrRow, now: int)
      requires plan.task in tasks && plan.attempt !in attempts
      modifies this
      ensures clock == old(clock)
      ensures Tables() == FollowUpTables(old(Tables()), ids, plan, pr, now)
    {
      var row := tasks[plan.task];
      var copy := Some(pr.(state := Open));
      attempts := attempts[plan.attempt := QueuedAttempt(plan.task, plan.number, plan.prompt, plan.baseBranch, plan.taskBranch, plan.manifest, copy)];
      tasks := tasks[plan.task := row.(state := Queued, current := plan.attempt, log := row.log + [AuditEvent(plan.attempt, row.state, Queued)])];
      inbox := map e | e in inbox :: if e in ids then AssociatedRow(inbox[e], plan.task, plan.attempt, now) else inbox[e];
    }

    /** `PutForgeEventAfter`. */
    method PutForgeEvent(id: ForgeEventId, kind: Kind, at: Coordinates, delay: int, now: int) returns (error: Option<Error>)
      requires Valid() && clock < now
      modifies this
      ensures Valid() && clock == now
      ensures Committed(old(Tables()), PutEvent(old(Tables()), id, kind, at, delay, now), Tables(), error)
    {
      hide Inv, Advances, Step, Apply, Acceptable;
      AcceptCommits(Tables(), clock, id, kind, at, delay, now);
      clock := now;
      if !Acceptable(kind, at) || delay < 0 {
        return Some(Invalid);
      }
      if id in inbox {
        return None;
      }
      inbox := inbox[id := ForgeEvent(kind, at, EventPending, None, None, 0, "", now, None, None, None)];
      if kind == ReviewComment && delay > 0 {
        inbox := map e | e in inbox ::
          if Slides(inbox[e], at, e == id) then inbox[e].(nextAttempt := Some(now + delay), updatedAt := now) else inbox[e];
      }
      return None;
    }

    /** `DeferForgeEvent`. */
    method DeferForgeEvent(id: ForgeEventId, expected: EventStatus, now: int) returns (error: Option<Error>)
      requires Valid() && clock < now
      modifies this
      ensures Valid() && clock == now
      ensures Committed(old(Tables()), Defer(old(Tables()), id, expected, now), Tables(), error)
    {
      hide Inv, Advances, Step, Apply;
      YieldCommits(Tables(), clock, id, expected, now);
      clock := now;
      if expected != EventPending && expected != EventRunning {
        return Some(Invalid);
      }
      if id !in inbox || inbox[id].status != expected {
        return None;
      }
      var e, deadline := inbox[id], now + YIELD_DELAY;
      if e.nextAttempt.None? || e.nextAttempt.value < deadline {
        e := e.(nextAttempt := Some(deadline));
      }
      inbox := inbox[id := e.(updatedAt := now)];
      return None;
    }

    /** `RecordForgeEventErrorAfter`. */
    method RecordForgeEventError(id: ForgeEventId, message: string, after: int, now: int) returns (error: Option<Error>)
      requires Valid() && clock < now
      modifies this
      ensures Valid() && clock == now
      ensures Committed(old(Tables()), RecordError(old(Tables()), id, message, after, now), Tables(), error)
    {
      hide Inv, Advances, Step, Apply, RetryDelay;
      ErrorCommits(Tables(), clock, id, message, after, now);
      clock := now;
      if id !in inbox || !Incomplete(inbox[id]) {
        return Some(NotFound);
      }
      var e := inbox[id];
      var delay := ComputeRetryDelay(e.attempts);
      var floor := ClampRetryAfter(after);
      if delay < floor {
        delay := floor;
      }
      inbox := inbox[id := e.(attempts := e.attempts + 1, lastError := message, updatedAt := now, nextAttempt := Some(now + delay))];
      return None;
    }

    /** `RecordForgeEventBatchErrorAfter`. */
    method RecordForgeEventBatchError(ids: seq<ForgeEventId>, message: string, after: int, now: int) returns (error: Option<Error>)
      requires Valid() && clock < now
      modifies this
      ensures Valid() && clock == now
      ensures Committed(old(Tables()), RecordBatchError(old(Tables()), ids, message, after, now), Tables(), error)
    {
      hide Inv, Advances, Step, Apply, ValidIds, DeferralReplay, ValidateOutcome, BatchDelay, LargestAttempts;
      BatchErrorCommits(Tables(), clock, ids, message, after, now);
      clock := now;
      var retryAfter := ClampRetryAfter(after);
      var valid := ValidateForgeEventIds(ids);
      if !valid {
        return Some(Invalid);
      }
      var events := ReadForgeEventsByIds(Tables(), ids);
      if events.None? {
        return Some(NotFound);
      }
      assert ids != [] by { IdsAreNonempty(ids); }
      var replay := ForgeEventBatchDeferralReplay(Tables(), ids, message, retryAfter, now);
      if replay.IsReplay? {
        return None;
      }
      if replay.ReplayConflict? {
        return Some(Conflict);
      }
      var outcome := ValidateForgeEventOutcomeBatch(Tables(), ids, now);
      if outcome.Err? {
        return Some(outcome.error);
      }
      var delay, largest := PaceBatch(Tables(), ids, retryAfter, 0);
      inbox := map e | e in inbox ::
        if e in ids then DeferredRow(inbox[e], (if outcome.value.RunningBatch? then largest else inbox[e].attempts) + 1, message, now, now + delay)
        else inbox[e];
      return None;
    }

    /** `FailForgeEvent`. */
    method FailForgeEvent(id: ForgeEventId, message: string, now: int) returns (error: Option<Error>)
      requires Valid() && clock < now
      modifies this
      ensures Valid() && clock == now
      ensures Committed(old(Tables()), FailEvent(old(Tables()), id, message, now), Tables(), error)
    {
      hide Inv, Advances, Step, Apply, Blank, CancelOwner;
      FailCommits(Tables(), clock, id, message, now);
      clock := now;
      if Blank(message) {
        return Some(Invalid);
      }
      if id !in inbox {
        return Some(NotFound);
      }
      var e := inbox[id];
      var associated := e.task.Some? && e.attempt.Some?;
      if e.status == EventFailed && associated {
        return if e.lastError == message && e.failedAt.Some? then None else Some(Conflict);
      }
      if !Incomplete(e) {
        return Some(NotFound);
      }
      if e.status == EventRunning && associated {
        var batch := RunningFor(Tables(), e.task.value, e.attempt.value);
        tasks := CancelOwner(Tables(), e.task.value, e.attempt.value);
        inbox := map f | f in inbox :: if f in batch then FailedRow(inbox[f], message, now) else inbox[f];
      } else {
        inbox := inbox[id := FailedRow(e, message, now)];
      }
      return None;
    }

    /** `FailForgeEventBatch`. */
    method FailForgeEventBatch(ids: seq<ForgeEventId>, message: string, now: int) returns (error: Option<Error>)
      requires Valid() && clock < now
      modifies this
      ensures Valid() && clock == now
      ensures Committed(old(Tables()), FailBatch(old(Tables()), ids, message, now), Tables(), error)
    {
      hide Inv, Advances, Step, Apply, ValidIds, FailureReplay, ValidateOutcome, Blank, CancelOwner;
      FailBatchCommits(Tables(), clock, ids, message, now);
      clock := now;
      var valid := ValidateForgeEventIds(ids);
      if !valid || Blank(message) {
        return Some(Invalid);
      }
      var events := ReadForgeEventsByIds(Tables(), ids);
      if events.None? {
        return Some(NotFound);
      }
      assert ids != [] by { IdsAreNonempty(ids); }
      var replay := ForgeEventBatchFailureReplay(Tables(), ids, message);
      if replay.IsReplay? {
        return None;
      }
      if replay.ReplayConflict? {
        return Some(Conflict);
      }
      var outcome := ValidateForgeEventOutcomeBatch(Tables(), ids, now);
      if outcome.Err? {
        return Some(outcome.error);
      }
      if outcome.value.RunningBatch? {
        tasks := CancelOwner(Tables(), outcome.value.task, outcome.value.attempt);
      }
      inbox := map e | e in inbox :: if e in ids then FailedRow(inbox[e], message, now) else inbox[e];
      return None;
    }

    /** `MarkForgeEventHandled`. */
    method MarkForgeEventHandled(id: ForgeEventId, now: int) returns (error: Option<Error>)
      requires Valid() && clock < now
      modifies this
      ensures Valid() && clock == now
      ensures Committed(old(Tables()), MarkHandled(old(Tables()), id, now), Tables(), error)
    {
      hide Inv, Advances, Step, Apply;
      HandledCommits(Tables(), clock, id, now);
      clock := now;
      if id !in inbox || inbox[id].status == EventFailed {
        return Some(NotFound);
      }
      var e := inbox[id];
      inbox := inbox[id := e.(status := EventHandled, lastError := "", nextAttempt := None, updatedAt := now)];
      if e.handledAt.None? {
        inbox := inbox[id := inbox[id].(handledAt := Some(now))];
      }
      assert Tables() == MarkHandled(old(Tables()), id, now).value;
      return None;
    }
  }

  lemma IdsAreNonempty(ids: seq<ForgeEventId>)
    requires ValidIds(ids)
    ensures ids != []
  {
  }

  lemma TargetExists(db: Db, t: TaskId, plan: Plan)
    requires FollowUpTarget(db, t, plan).Ok?
    ensures t in db.tasks
  {
  }
}
