/** The forge-event inbox: webhook events are accepted once, paced, batched, bound
    to a follow-up attempt, and then handled or failed for good. */
module ForgeInbox {
  import opened Wrappers
  import opened TaskState
  import opened Rows
  import opened StoreSpec

  // ------------------------------------------------------------------- pacing

  function Max(a: int, b: int): int { if a < b then b else a }

  function Min(a: int, b: int): int { if a < b then a else b }

  function Pow2(n: nat): nat { if n == 0 then 1 else 2 * Pow2(n - 1) }

  /** The pause after `attempts` failures: 5 s, doubled each time, at most 5 min. */
  function RetryDelay(attempts: nat): int {
    Min(RETRY_BASE * Pow2(attempts), RETRY_MAX)
  }

  function ClampRetryAfter(retryAfter: int): int {
    Max(0, Min(retryAfter, RETRY_AFTER_MAX))
  }

  // ------------------------------------------------------------------ arrival

  /** The store's own checks on an event, besides the text of its identities. */
  predicate Acceptable(kind: Kind, at: Coordinates) {
    && (at.provider == "github" || at.provider == "bitbucket")
    && at.owner != "" && at.repository != ""
    && (kind == QualityGateFailed ==> at.sha != "")
    && (kind == ReviewComment ==> at.number > 0)
  }

  predicate Unassociated(e: ForgeEvent) {
    e.task.None? && e.attempt.None?
  }

  predicate Incomplete(e: ForgeEvent) {
    e.status == EventPending || e.status == EventRunning
  }

  predicate Due(e: ForgeEvent, now: int) {
    e.nextAttempt.None? || e.nextAttempt.value <= now
  }

  /** Pending reviews of the same commit share one deadline. */
  predicate Slides(e: ForgeEvent, at: Coordinates, isNew: bool) {
    && e.kind == ReviewComment && e.status == EventPending && Unassociated(e)
    && e.at == at && (at.sha != "" || isNew)
  }

  function PutEvent(db: Db, id: ForgeEventId, kind: Kind, at: Coordinates, delay: int, now: int): Result<Db> {
    if !Acceptable(kind, at) || delay < 0 then Err(Invalid)
    else if id in db.inbox then Ok(db)
    else
      var inbox := db.inbox[id := ForgeEvent(kind, at, EventPending, None, None, 0, "", now, None, None, None)];
      if kind != ReviewComment || delay == 0 then Ok(db.(inbox := inbox))
      else Ok(db.(inbox := map e | e in inbox ::
                    if Slides(inbox[e], at, e == id) then inbox[e].(nextAttempt := Some(now + delay), updatedAt := now) else inbox[e]))
  }

  function Defer(db: Db, id: ForgeEventId, expected: EventStatus, now: int): Result<Db> {
    if expected != EventPending && expected != EventRunning then Err(Invalid)
    else if id !in db.inbox || db.inbox[id].status != expected then Ok(db)
    else
      var e, deadline := db.inbox[id], now + YIELD_DELAY;
      var next := if e.nextAttempt.None? || e.nextAttempt.value < deadline then Some(deadline) else e.nextAttempt;
      Ok(db.(inbox := db.inbox[id := e.(nextAttempt := next, updatedAt := now)]))
  }

  function RecordError(db: Db, id: ForgeEventId, message: string, retryAfter: int, now: int): Result<Db> {
    if id !in db.inbox || !Incomplete(db.inbox[id]) then Err(NotFound)
    else
      var e := db.inbox[id];
      var delay := Max(ClampRetryAfter(retryAfter), RetryDelay(e.attempts));
      Ok(db.(inbox := db.inbox[id := e.(attempts := e.attempts + 1, lastError := message, updatedAt := now, nextAttempt := Some(now + delay))]))
  }

  function MarkHandled(db: Db, id: ForgeEventId, now: int): Result<Db> {
    if id !in db.inbox || db.inbox[id].status == EventFailed then Err(NotFound)
    else
      var e := db.inbox[id];
      Ok(db.(inbox := db.inbox[id := e.(status := EventHandled, lastError := "", nextAttempt := None, updatedAt := now,
                                        handledAt := if e.handledAt.Some? then e.handledAt else Some(now))]))
  }

  // ------------------------------------------------------------------ batches

  predicate Distinct<T(==)>(s: seq<T>) {
    forall i, j | 0 <= i < j < |s| :: s[i] != s[j]
  }

  predicate ValidIds(ids: seq<ForgeEventId>) {
    0 < |ids| <= BATCH_SIZE && Distinct(ids)
  }

  predicate Present(db: Db, ids: seq<ForgeEventId>) {
    forall id | id in ids :: id in db.inbox
  }

  predicate SameBatch(e: ForgeEvent, f: ForgeEvent) {
    e.at == f.at && e.at.sha != ""
  }

  /** Only reviews of one commit may be batched. */
  predicate OneBatch(db: Db, ids: seq<ForgeEventId>)
    requires ids != [] && Present(db, ids)
  {
    && (db.inbox[ids[0]].kind == ReviewComment || |ids| == 1)
    && forall i | 1 <= i < |ids| :: db.inbox[ids[i]].kind == ReviewComment && SameBatch(db.inbox[ids[0]], db.inbox[ids[i]])
  }

  datatype BatchOutcome = PendingBatch | RunningBatch(task: TaskId, attempt: AttemptId)

  /** `validateForgeEventOutcomeBatch`. */
  function ValidateOutcome(db: Db, ids: seq<ForgeEventId>, now: int): Result<BatchOutcome>
    requires ids != [] && Present(db, ids)
  {
    var first := db.inbox[ids[0]];
    if !OneBatch(db, ids) then Err(Conflict)
    else if exists i | 0 <= i < |ids| ::
              var e := db.inbox[ids[i]];
              || e.status != first.status || e.task != first.task || e.attempt != first.attempt
              || (first.status == EventPending && !Due(e, now)) then Err(Conflict)
    else if first.status == EventPending then
      if Unassociated(first) then Ok(PendingBatch) else Err(Conflict)
    else if first.status != EventRunning || first.task.None? || first.attempt.None? then Err(Conflict)
    else
      var t, a := first.task.value, first.attempt.value;
      if !Owns(db, t, a) then Err(Conflict)
      else if |RunningFor(db, t, a)| != |ids| then Err(Conflict)
      else Ok(RunningBatch(t, a))
  }

  function LargestAttempts(db: Db, ids: seq<ForgeEventId>): (m: nat)
    requires Present(db, ids)
    ensures forall id | id in ids :: db.inbox[id].attempts <= m
    ensures ids != [] ==> exists id | id in ids :: db.inbox[id].attempts == m
  {
    if ids == [] then 0
    else
      var rest := LargestAttempts(db, ids[..|ids| - 1]);
      Max(rest, db.inbox[ids[|ids| - 1]].attempts)
  }

  /** The longest pause any of the batch has earned, and at least `floor`. `shift` is 1
      when the failure to pace is already counted. */
  function BatchDelay(db: Db, ids: seq<ForgeEventId>, floor: int, shift: nat): (d: int)
    requires Present(db, ids) && forall id | id in ids :: db.inbox[id].attempts >= shift
    ensures d >= floor
  {
    if ids == [] then floor
    else Max(BatchDelay(db, ids[..|ids| - 1], floor, shift), RetryDelay(db.inbox[ids[|ids| - 1]].attempts - shift))
  }

  datatype Replay = NotReplay | IsReplay | ReplayConflict

  /** The events that share one recorded deferral. */
  function DeferredTogether(db: Db, message: string, updatedAt: int, next: int): set<ForgeEventId> {
    set e | e in db.inbox && db.inbox[e].status == EventPending && Unassociated(db.inbox[e]) && db.inbox[e].attempts > 0
            && db.inbox[e].lastError == message && db.inbox[e].updatedAt == updatedAt && db.inbox[e].nextAttempt == Some(next)
  }

  predicate DeferredLike(e: ForgeEvent, first: ForgeEvent, message: string) {
    && e.status == first.status && e.task == first.task && e.attempt == first.attempt && e.attempts > 0
    && e.lastError == message && e.nextAttempt == first.nextAttempt && e.nextAttempt.Some? && e.updatedAt == first.updatedAt
  }

  /** `forgeEventBatchDeferralReplay`. */
  function DeferralReplay(db: Db, ids: seq<ForgeEventId>, message: string, retryAfter: int, now: int): Replay
    requires ids != [] && Present(db, ids)
  {
    var first := db.inbox[ids[0]];
    if !Incomplete(first) || first.attempts == 0 || first.lastError != message || Due(first, now) then NotReplay
    else
      var associated := first.status == EventRunning && first.task.Some? && first.attempt.Some?;
      if (first.status == EventPending && !Unassociated(first)) || (first.status == EventRunning && !associated) then ReplayConflict
      else if exists i | 1 <= i < |ids| :: !DeferredLike(db.inbox[ids[i]], first, message) then
        if associated then NotReplay else ReplayConflict
      else if first.nextAttempt != Some(first.updatedAt + ReplayDelay(db, ids, retryAfter)) then
        if associated then NotReplay else ReplayConflict
      else if associated && !Owns(db, first.task.value, first.attempt.value) then ReplayConflict
      else
        var count := if associated then |RunningFor(db, first.task.value, first.attempt.value)|
                     else |DeferredTogether(db, message, first.updatedAt, first.nextAttempt.value)|;
        if count == |ids| then IsReplay else ReplayConflict
  }

  function ReplayDelay(db: Db, ids: seq<ForgeEventId>, retryAfter: int): int
    requires Present(db, ids)
  {
    if forall id | id in ids :: db.inbox[id].attempts >= 1 then BatchDelay(db, ids, retryAfter, 1) else retryAfter
  }

  function DeferredRow(e: ForgeEvent, attempts: nat, message: string, now: int, next: int): ForgeEvent {
    e.(attempts := attempts, lastError := message, updatedAt := now, nextAttempt := Some(next))
  }

  /** `RecordForgeEventBatchErrorAfter`. */
  function RecordBatchError(db: Db, ids: seq<ForgeEventId>, message: string, after: int, now: int): Result<Db> {
    var retryAfter := ClampRetryAfter(after);
    if !ValidIds(ids) then Err(Invalid)
    else if !Present(db, ids) then Err(NotFound)
    else
      match DeferralReplay(db, ids, message, retryAfter, now)
      case IsReplay => Ok(db)
      case ReplayConflict => Err(Conflict)
      case NotReplay =>
        match ValidateOutcome(db, ids, now)
        case Err(e) => Err(e)
        case Ok(outcome) =>
          var next := now + BatchDelay(db, ids, retryAfter, 0);
          var largest := LargestAttempts(db, ids);
          Ok(db.(inbox := map e | e in db.inbox ::
                   if e in ids then DeferredRow(db.inbox[e], (if outcome.RunningBatch? then largest else db.inbox[e].attempts) + 1, message, now, next)
                   else db.inbox[e]))
  }

  // ----------------------------------------------------------------- failures

  function FailedRow(e: ForgeEvent, message: string, now: int): ForgeEvent {
    e.(status := EventFailed, attempts := e.attempts + 1, lastError := message, nextAttempt := None, failedAt := Some(now), updatedAt := now)
  }

  /** Cancels the task if it is still working on this attempt. */
  function CancelOwner(db: Db, t: TaskId, a: AttemptId): map<TaskId, TaskRow> {
    if t in db.tasks && db.tasks[t].current == a && !Terminal(db.tasks[t].state)
    then db.tasks[t := db.tasks[t].(cancel := true)] else db.tasks
  }

  function FailEvent(db: Db, id: ForgeEventId, message: string, now: int): Result<Db> {
    if Blank(message) then Err(Invalid)
    else if id !in db.inbox then Err(NotFound)
    else
      var e := db.inbox[id];
      var associated := e.task.Some? && e.attempt.Some?;
      if e.status == EventFailed && associated then
        if e.lastError == message && e.failedAt.Some? then Ok(db) else Err(Conflict)
      else if !Incomplete(e) then Err(NotFound)
      else if e.status == EventRunning && associated then
        var batch := RunningFor(db, e.task.value, e.attempt.value);
        Ok(db.(tasks := CancelOwner(db, e.task.value, e.attempt.value),
               inbox := map f | f in db.inbox :: if f in batch then FailedRow(db.inbox[f], message, now) else db.inbox[f]))
      else Ok(db.(inbox := db.inbox[id := FailedRow(e, message, now)]))
  }

  predicate FailedLike(e: ForgeEvent, first: ForgeEvent, message: string) {
    && e.status == EventFailed && e.task == first.task && e.attempt == first.attempt && e.failedAt.Some?
    && e.lastError == message && e.nextAttempt.None? && e.failedAt == first.failedAt && e.updatedAt == first.updatedAt
  }

  /** The events that share one recorded failure. */
  function FailedTogether(db: Db, first: ForgeEvent, message: string): set<ForgeEventId> {
    set e | e in db.inbox && FailedLike(db.inbox[e], first, message)
  }

  /** `forgeEventBatchFailureReplay`. */
  function FailureReplay(db: Db, ids: seq<ForgeEventId>, message: string): Replay
    requires ids != [] && Present(db, ids)
  {
    var first := db.inbox[ids[0]];
    if first.status != EventFailed || first.failedAt.None? || first.lastError != message || first.nextAttempt.Some? then NotReplay
    else if first.task.Some? != first.attempt.Some? then ReplayConflict
    else if exists i | 1 <= i < |ids| :: !FailedLike(db.inbox[ids[i]], first, message) then ReplayConflict
    else if first.task.Some? && !Owns(db, first.task.value, first.attempt.value) then ReplayConflict
    else if |FailedTogether(db, first, message)| == |ids| then IsReplay else ReplayConflict
  }

  function FailBatch(db: Db, ids: seq<ForgeEventId>, message: string, now: int): Result<Db> {
    if !ValidIds(ids) || Blank(message) then Err(Invalid)
    else if !Present(db, ids) then Err(NotFound)
    else
      match FailureReplay(db, ids, message)
      case IsReplay => Ok(db)
      case ReplayConflict => Err(Conflict)
      case NotReplay =>
        match ValidateOutcome(db, ids, now)
        case Err(e) => Err(e)
        case Ok(outcome) =>
          Ok(db.(tasks := if outcome.RunningBatch? then CancelOwner(db, outcome.task, outcome.attempt) else db.tasks,
                 inbox := map e | e in db.inbox :: if e in ids then FailedRow(db.inbox[e], message, now) else db.inbox[e]))
  }

  // --------------------------------------------------------------- follow-ups

  /** `validateForgeEventBatch`: the attempt the batch already runs on, if any. */
  function ValidateBatch(db: Db, ids: seq<ForgeEventId>, t: TaskId, now: int): Result<Option<AttemptId>>
    requires ids != [] && Present(db, ids)
  {
    var first := db.inbox[ids[0]];
    if !OneBatch(db, ids) then Err(Conflict)
    else if first.status == EventRunning then
      if forall i | 0 <= i < |ids| :: var e := db.inbox[ids[i]];
            e.status == EventRunning && e.task == Some(t) && e.attempt.Some? && e.attempt == first.attempt
      then Ok(first.attempt) else Err(Conflict)
    else CheckPending(db, ids, now)
  }

  /** The scan of a batch that is not running: the first unfit event decides. */
  function CheckPending(db: Db, ids: seq<ForgeEventId>, now: int): (r: Result<Option<AttemptId>>)
    requires Present(db, ids)
    ensures r.Ok? <==> forall id | id in ids :: db.inbox[id].status == EventPending && Unassociated(db.inbox[id]) && Due(db.inbox[id], now)
    ensures r.Ok? ==> r == Ok(None)
  {
    if ids == [] then Ok(None)
    else if db.inbox[ids[0]].status != EventPending || !Unassociated(db.inbox[ids[0]]) then Err(Conflict)
    else if !Due(db.inbox[ids[0]], now) then Err(NotDue)
    else
      assert forall id | id in ids :: id == ids[0] || id in ids[1..];
      CheckPending(db, ids[1..], now)
  }

  /** The checks on the task a follow-up is about to reset. */
  function FollowUpTarget(db: Db, t: TaskId, plan: Plan): Result<PrRow> {
    if t !in db.tasks || db.tasks[t].current !in db.attempts || db.attempts[db.tasks[t].current].pr.None? then Err(NotFound)
    else
      var r := db.tasks[t];
      var a := db.attempts[r.current];
      var pr := a.pr.value;
      if pr.state != Open || pr.number == 0 || Blank(pr.head) then Err(Conflict)
      else if r.current != plan.previous || plan.baseBranch != pr.base || plan.taskBranch != pr.head then Err(Conflict)
      else if !CanFollowUp(r.state, Queued) then Err(Conflict)
      else if !a.logsExhausted then Err(Conflict)
      else if HasPendingWorkerEvents(db, t, r.current) then Err(Conflict)
      else if r.cancel then Err(Conflict)
      else if RunningOf(db, t) != {} then Err(Conflict)
      else Ok(pr)
  }

  function AssociatedRow(e: ForgeEvent, t: TaskId, a: AttemptId, now: int): ForgeEvent {
    e.(task := Some(t), attempt := Some(a), status := EventRunning, attempts := e.attempts + 1, lastError := "", nextAttempt := None, updatedAt := now)
  }

  /** `StartForgeEventAttempt`. */
  function StartFollowUp(db: Db, ids: seq<ForgeEventId>, plan: Plan, now: int): Result<Started> {
    var t := plan.task;
    if !ValidIds(ids) then Err(Invalid)
    else if !Present(db, ids) then Err(NotFound)
    else
      match ValidateBatch(db, ids, t, now)
      case Err(e) => Err(e)
      case Ok(Some(a)) =>
        if !Owns(db, t, a) then Err(NotFound)
        else if db.attempts[a].manifest.None? then Err(Conflict)
        else Ok(Started(db, a, false))
      case Ok(None) =>
        if plan.number == 0 || Blank(plan.prompt) then Err(Invalid)
        else if plan.manifest.None? then Err(Conflict)
        else
          match FollowUpTarget(db, t, plan)
          case Err(e) => Err(e)
          case Ok(pr) =>
            if plan.number != NextNumber(db, t) || plan.attempt in db.attempts then Err(Conflict)
            else Ok(Started(FollowUpTables(db, ids, plan, pr, now), plan.attempt, true))
  }

  /** The rows an accepted follow-up leaves: the attempt with its copied pull request,
      the reset task, and the batch bound to the attempt. */
  function FollowUpTables(db: Db, ids: seq<ForgeEventId>, plan: Plan, pr: PrRow, now: int): Db
    requires plan.task in db.tasks
  {
    var row := QueuedAttempt(plan.task, plan.number, plan.prompt, plan.baseBranch, plan.taskBranch, plan.manifest, Some(pr.(state := Open)));
    var inbox := map e | e in db.inbox :: if e in ids then AssociatedRow(db.inbox[e], plan.task, plan.attempt, now) else db.inbox[e];
    Reset(db, plan.task, plan.attempt, row, db.tasks[plan.task].cancel, inbox, "")
  }

  // ---------------------------------------------------------- selection and planning

  /** What `ListDueForgeEventBatch` selects for a due review: distinct due siblings of the
      same commit, at most 32; a review without a commit stays alone. */
  predicate DueBatch(db: Db, seed: ForgeEventId, ids: seq<ForgeEventId>, now: int) {
    && seed in db.inbox && ValidIds(ids) && Present(db, ids)
    && forall id | id in ids ::
         var e := db.inbox[id];
         && e.kind == ReviewComment && e.status == EventPending && Unassociated(e) && Due(e, now)
         && e.at == db.inbox[seed].at && (e.at.sha != "" || id == seed)
  }

  datatype Planned = Existing(attempt: AttemptId) | New(plan: Plan)

  /** `PlanForgeEventAttempt`, completed with the snapshot the controller builds. */
  function PlanFollowUp(db: Db, ids: seq<ForgeEventId>, t: TaskId, prompt: string, id: AttemptId, m: Manifest, now: int): Result<Planned> {
    if !ValidIds(ids) || Blank(prompt) then Err(Invalid)
    else if !Present(db, ids) then Err(NotFound)
    else
      match ValidateBatch(db, ids, t, now)
      case Err(e) => Err(e)
      case Ok(Some(a)) =>
        if !Owns(db, t, a) then Err(NotFound)
        else if db.attempts[a].manifest.None? then Err(Conflict)
        else Ok(Existing(a))
      case Ok(None) =>
        if t !in db.tasks || db.tasks[t].current !in db.attempts || db.attempts[db.tasks[t].current].pr.None? then Err(NotFound)
        else
          var pr := db.attempts[db.tasks[t].current].pr.value;
          Ok(New(Plan(id, t, db.tasks[t].current, NextNumber(db, t), prompt, pr.base, pr.head, Some(m))))
  }
}
