/** What single transactions of the store do, said on the tables themselves: which rows
    an accepted reset writes, and how arrivals and failures move the deadlines of events. */
module StoreEffects {
  import opened Wrappers
  import opened TaskState
  import opened Rows
  import opened Transactions
  import opened StoreSpec
  import opened ForgeInbox
  import opened StoreInvariant
  import opened StoreSteps
  import opened StoreResets
  import opened StoreRuns
  import opened StoreTheorems
  import opened Deferral

  // ------------------------------------------------------------------------ resets

  /** The task starts over on attempt `id`; no other task and no older attempt changes,
      and neither do the outbox and the creation keys. */
  ghost predicate StartsOver(db: Db, db': Db, t: TaskId, id: AttemptId, row: AttemptRow)
    requires t in db.tasks
  {
    var r := db.tasks[t];
    && id !in db.attempts && db'.attempts == db.attempts[id := row]
    && db'.tasks == db.tasks[t := TaskRow(Queued, id, false, r.log + [AuditEvent(id, r.state, Queued)])]
    && db'.outbox == db.outbox && db'.createIntents == db.createIntents
  }

  /** An attempt that has only its instructions and, perhaps, a pull request. */
  function Fresh(t: TaskId, number: nat, prompt: string, base: string, head: string, m: Option<Manifest>, pr: Option<PrRow>): AttemptRow {
    AttemptRow(t, number, Queued, prompt, base, head, m, false, NotValidated, [], None, pr)
  }

  /** The running events of the task, and only they, move to the new attempt. */
  ghost predicate MovesRunning(db: Db, db': Db, t: TaskId, id: AttemptId, now: int) {
    && db'.inbox.Keys == db.inbox.Keys
    && (forall e | e in RunningOf(db, t) :: db'.inbox[e] == db.inbox[e].(attempt := Some(id), updatedAt := now))
    && (forall e | e in db.inbox && e !in RunningOf(db, t) :: db'.inbox[e] == db.inbox[e])
  }

  /** Everything an accepted retry changes: a failed task starts over on the next
      attempt, which repeats the prompt, branches and pull request of a running
      follow-up and is blank otherwise; the running batch moves along. */
  lemma RetryIsExact(db: Db, clock: int, t: TaskId, key: Key, plan: Option<Plan>, newId: AttemptId, now: int)
    requires Inv(db, clock) && t in db.tasks && Owns(db, t, db.tasks[t].current)
    requires var tx := RetryTaskOnce(db, t, key, plan, newId, now); tx.Ok? && tx.value.inserted
    ensures var tx, was := RetryTaskOnce(db, t, key, plan, newId, now).value, db.attempts[db.tasks[t].current];
            var manifest := if plan.Some? then plan.value.manifest else None;
            var row := if RunningOf(db, t) == {} then Fresh(t, was.number + 1, "", "", "", manifest, None)
                       else Fresh(t, was.number + 1, was.prompt, if was.pr.Some? then was.pr.value.base else "", if was.pr.Some? then was.pr.value.head else "", manifest, was.pr);
            && db.tasks[t].state == Failed && tx.id == (if plan.Some? then plan.value.attempt else newId)
            && StartsOver(db, tx.db, t, tx.id, row) && MovesRunning(db, tx.db, t, tx.id, now)
            && tx.db.retryIntents == if key != "" then db.retryIntents[(t, key) := tx.id] else db.retryIntents
  {
    hide TasksOk, AttemptsOk, InboxOk, OutboxOk, IntentsOk, HasPendingWorkerEvents, NextNumber, TaskOk, Together, CanTransition;
    NextNumberIsNext(db, t);
    RunningIsBound(db, clock, t);
    FailedIsNotCancelled(db, t);
  }

  lemma FailedIsNotCancelled(db: Db, t: TaskId)
    requires TasksOk(db) && t in db.tasks && Terminal(db.tasks[t].state)
    ensures !db.tasks[t].cancel
  {
    assert TaskOk(db, t);
  }

  /** The batch, and only the batch, is bound to the attempt and runs. */
  ghost predicate BindsBatch(db: Db, db': Db, ids: seq<ForgeEventId>, t: TaskId, id: AttemptId, now: int) {
    && db'.inbox.Keys == db.inbox.Keys
    && (forall e | e in ids && e in db.inbox ::
          && db.inbox[e].status == EventPending && Unassociated(db.inbox[e]) && Due(db.inbox[e], now)
          && db'.inbox[e] == ForgeEvent(db.inbox[e].kind, db.inbox[e].at, EventRunning, Some(t), Some(id), db.inbox[e].attempts + 1, "", now, None,
                                        db.inbox[e].handledAt, db.inbox[e].failedAt))
    && (forall e | e in db.inbox && e !in ids :: db'.inbox[e] == db.inbox[e])
  }

  /** Everything an accepted follow-up changes: a task with an open pull request starts
      over on the next attempt, with that pull request and its branches, and the batch
      runs on it. */
  lemma FollowUpIsExact(db: Db, clock: int, ids: seq<ForgeEventId>, plan: Plan, now: int)
    requires Inv(db, clock)
    requires var tx := StartFollowUp(db, ids, plan, now); tx.Ok? && tx.value.inserted
    ensures var tx, t := StartFollowUp(db, ids, plan, now).value, plan.task;
            && t in db.tasks && Owns(db, t, db.tasks[t].current)
            && var was := db.attempts[db.tasks[t].current];
            && PullRequestOpen(was.state) && OpenPr(was) && tx.id == plan.attempt
            && StartsOver(db, tx.db, t, plan.attempt, Fresh(t, was.number + 1, plan.prompt, was.pr.value.base, was.pr.value.head, plan.manifest, was.pr))
            && BindsBatch(db, tx.db, ids, t, plan.attempt, now)
            && tx.db.retryIntents == db.retryIntents
  {
    hide TasksOk, AttemptsOk, InboxOk, HasPendingWorkerEvents, NextNumber, TaskOk, ValidIds, Blank, RunningOf, OneBatch;
    NextNumberIsNext(db, plan.task);
    CurrentIsOwn(db, plan.task);
  }

  // ------------------------------------------------------------------------ pacing

  /** A known event changes nothing; a new one is pending and unclaimed, and a delayed
      review moves the deadline of all pending reviews of its commit to its own. */
  lemma ArrivalIsExact(db: Db, id: ForgeEventId, kind: Kind, at: Coordinates, delay: int, now: int)
    requires PutEvent(db, id, kind, at, delay, now).Ok?
    ensures var db' := PutEvent(db, id, kind, at, delay, now).value;
            var slides := kind == ReviewComment && delay > 0;
            && db' == db.(inbox := db'.inbox) && db'.inbox.Keys == db.inbox.Keys + {id}
            && (id in db.inbox ==> db' == db)
            && (id !in db.inbox ==> db'.inbox[id] == ForgeEvent(kind, at, EventPending, None, None, 0, "", now, if slides then Some(now + delay) else None, None, None))
            && (forall e | e in db.inbox && id !in db.inbox ::
                  if slides && db.inbox[e].kind == ReviewComment && db.inbox[e].status == EventPending && Unassociated(db.inbox[e]) && db.inbox[e].at == at && at.sha != ""
                  then db'.inbox[e] == db.inbox[e].(nextAttempt := Some(now + delay), updatedAt := now)
                  else db'.inbox[e] == db.inbox[e])
  {
    hide Acceptable;
  }

  /** A new review of a commit keeps every batch of that commit back for its whole delay. */
  lemma ArrivalPostponesBatch(db: Db, id: ForgeEventId, at: Coordinates, delay: int, now: int, seed: ForgeEventId, ids: seq<ForgeEventId>, later: int)
    requires PutEvent(db, id, ReviewComment, at, delay, now).Ok? && id !in db.inbox && delay > 0 && at.sha != ""
    requires var db' := PutEvent(db, id, ReviewComment, at, delay, now).value;
             DueBatch(db', seed, ids, later) && db'.inbox[seed].at == at
    ensures later >= now + delay
  {
    hide PutEvent, Distinct;
    ArrivalIsExact(db, id, ReviewComment, at, delay, now);
    var db' := PutEvent(db, id, ReviewComment, at, delay, now).value;
    assert ids[0] in ids;
  }

  /** Yielding keeps everything but the deadline, which moves at least five seconds
      ahead and never back. */
  lemma YieldNeverHastens(db: Db, id: ForgeEventId, expected: EventStatus, now: int)
    requires Defer(db, id, expected, now).Ok? && id in db.inbox
    ensures var db', was := Defer(db, id, expected, now).value, db.inbox[id];
            && db' == db.(inbox := db.inbox[id := db'.inbox[id]])
            && (was.status != expected ==> db'.inbox[id] == was)
            && (was.status == expected ==>
                  && db'.inbox[id] == was.(nextAttempt := db'.inbox[id].nextAttempt, updatedAt := now)
                  && !Due(db'.inbox[id], now + YIELD_DELAY - 1)
                  && forall at | Due(db'.inbox[id], at) :: Due(was, at))
  {
    assert db.inbox[id := db.inbox[id]] == db.inbox;
  }

  /** A failed step counts once and waits at least what the failures so far and the
      provider ask for, and never more than a day. */
  lemma ErrorPausesEvent(db: Db, id: ForgeEventId, message: string, retryAfter: int, now: int)
    requires RecordError(db, id, message, retryAfter, now).Ok?
    ensures id in db.inbox
            && var db', was := RecordError(db, id, message, retryAfter, now).value, db.inbox[id];
            && db' == db.(inbox := db.inbox[id := db'.inbox[id]])
            && db'.inbox[id].nextAttempt.Some?
            && var wait := db'.inbox[id].nextAttempt.value - now;
            && db'.inbox[id] == was.(attempts := was.attempts + 1, lastError := message, updatedAt := now, nextAttempt := Some(now + wait))
            && RetryDelay(was.attempts) <= wait <= RETRY_AFTER_MAX && ClampRetryAfter(retryAfter) <= wait
  {
    RetryDelayIsMonotone(0, db.inbox[id].attempts);
  }

  /** A deferred batch shares one deadline that respects every member's own pause. */
  lemma BatchSharesDeadline(db: Db, ids: seq<ForgeEventId>, message: string, retryAfter: int, now: int)
    requires ValidIds(ids) && Present(db, ids) && ValidateOutcome(db, ids, now).Ok?
    requires DeferralReplay(db, ids, message, ClampRetryAfter(retryAfter), now).NotReplay?
    ensures var tx := RecordBatchError(db, ids, message, retryAfter, now);
            && tx.Ok? && tx.value == db.(inbox := tx.value.inbox) && tx.value.inbox.Keys == db.inbox.Keys
            && (forall e | e in db.inbox && e !in ids :: tx.value.inbox[e] == db.inbox[e])
            && exists next :: now + ClampRetryAfter(retryAfter) <= next && BatchPaused(db, tx.value, ids, message, now, next)
  {
    hide ValidateOutcome, DeferralReplay, ClampRetryAfter, RetryDelay, LargestAttempts;
    var next := now + BatchDelay(db, ids, ClampRetryAfter(retryAfter), 0);
    DelayCoversEach(db, ids, ClampRetryAfter(retryAfter));
    assert BatchPaused(db, RecordBatchError(db, ids, message, retryAfter, now).value, ids, message, now, next);
  }

  ghost predicate BatchPaused(db: Db, db': Db, ids: seq<ForgeEventId>, message: string, now: int, next: int) {
    forall e | e in ids :: e in db.inbox && e in db'.inbox
      && db'.inbox[e] == db.inbox[e].(attempts := db'.inbox[e].attempts, lastError := message, updatedAt := now, nextAttempt := Some(next))
      && db'.inbox[e].attempts > db.inbox[e].attempts && now + RetryDelay(db.inbox[e].attempts) <= next
  }

  lemma {:induction false} DelayCoversEach(db: Db, ids: seq<ForgeEventId>, floor: int)
    requires Present(db, ids)
    ensures forall e | e in ids :: RetryDelay(db.inbox[e].attempts) <= BatchDelay(db, ids, floor, 0)
  {
    if ids != [] {
      var last := |ids| - 1;
      DelayCoversEach(db, ids[..last], floor);
      forall e | e in ids ensures RetryDelay(db.inbox[e].attempts) <= BatchDelay(db, ids, floor, 0) {
        assert e == ids[last] || e in ids[..last];
      }
    }
  }

  /** Handling an event twice keeps the moment it was first handled. */
  lemma HandlingTwiceIsHandlingOnce(db: Db, id: ForgeEventId, now: int, later: int)
    requires MarkHandled(db, id, now).Ok?
    ensures var once := MarkHandled(db, id, now).value;
            && id in once.inbox && once.inbox[id].status == EventHandled && once.inbox[id].handledAt.Some?
            && MarkHandled(once, id, later) == Ok(once.(inbox := once.inbox[id := once.inbox[id].(updatedAt := later)]))
            && once == db.(inbox := db.inbox[id := once.inbox[id]])
            && once.inbox[id].handledAt == Some(if db.inbox[id].handledAt.Some? then db.inbox[id].handledAt.value else now)
  {
  }

  // ---------------------------------------------------------------------- failures

  lemma FailCases(db: Db, ids: seq<ForgeEventId>, message: string, now: int)
    requires FailBatch(db, ids, message, now).Ok?
    ensures var db1 := FailBatch(db, ids, message, now).value;
            && ValidIds(ids) && Present(db, ids) && Present(db1, ids) && !Blank(message)
            && (if FailureReplay(db, ids, message).IsReplay? then db1 == db
                else
                  && ValidateOutcome(db, ids, now).Ok? && db1.attempts == db.attempts && db1.inbox.Keys == db.inbox.Keys
                  && forall e | e in db.inbox :: db1.inbox[e] == if e in ids then FailedRow(db.inbox[e], message, now) else db.inbox[e])
  {
    hide FailureReplay, ValidateOutcome, Blank, CancelOwner;
  }

  /** A batch that was just failed is recognised as failed together. */
  lemma FailedIsReplay(db: Db, clock: int, ids: seq<ForgeEventId>, message: string, now: int)
    requires Inv(db, clock) && clock < now && FailBatch(db, ids, message, now).Ok?
    ensures var db1 := FailBatch(db, ids, message, now).value;
            ValidIds(ids) && Present(db1, ids) && !Blank(message) && FailureReplay(db1, ids, message).IsReplay?
  {
    hide Inv, FailBatch, ValidateOutcome, Blank;
    FailCases(db, ids, message, now);
    var db1 := FailBatch(db, ids, message, now).value;
    if !FailureReplay(db, ids, message).IsReplay? {
      OutcomeIsUniform(db, ids, now);
      StampedBefore(db, clock);
      if ValidateOutcome(db, ids, now).value.RunningBatch? {
        RunningOwner(db, ids, now);
      }
      DistinctSize(ids);
      assert ids[0] in ids;
      assert forall e | e in ids :: FailedLike(db1.inbox[e], db1.inbox[ids[0]], message);
      assert FailedTogether(db1, db1.inbox[ids[0]], message) == SetOf(ids);
    }
  }

  /** Events that failed together stay so: nothing leaves the failed state, and nothing
      later can share their stamp. */
  lemma FailureReplayLasts(db: Db, clock: int, ids: seq<ForgeEventId>, message: string, db2: Db)
    requires Inv(db, clock) && Advances(db, clock, db2) && ValidIds(ids) && Present(db, ids) && FailureReplay(db, ids, message).IsReplay?
    ensures Present(db2, ids) && FailureReplay(db2, ids, message).IsReplay?
  {
    hide Inv;
    StampedBefore(db, clock);
    assert forall i | 0 <= i < |ids| :: ids[i] in ids;
    var first := db.inbox[ids[0]];
    assert forall i | 1 <= i < |ids| :: FailedLike(db.inbox[ids[i]], first, message);
    assert FailedTogether(db2, first, message) == FailedTogether(db, first, message);
  }

  /** Failing a batch again with the same message, after any later transactions, is
      recognised and changes nothing. */
  lemma FailureReplayIsNoOp(db: Db, clock: int, ids: seq<ForgeEventId>, message: string, now: int, run: seq<Timed>, later: int)
    requires Inv(db, clock) && clock < now && FailBatch(db, ids, message, now).Ok?
    requires ValidRun(FailBatch(db, ids, message, now).value, now, run)
    ensures var db2 := Run(FailBatch(db, ids, message, now).value, run); FailBatch(db2, ids, message, later) == Ok(db2)
  {
    hide Inv, Run, ValidRun, Advances, FailureReplay, Blank;
    var db1 := FailBatch(db, ids, message, now).value;
    FailedIsReplay(db, clock, ids, message, now);
    StepKeeps(db, clock, FailAll(ids, message), now);
    RunKeeps(db1, now, run);
    FailureReplayLasts(db1, now, ids, message, Run(db1, run));
  }

  // --------------------------------------------------------------- command results

  /** A result reaches exactly the one running command, which has the reported name;
      the command has then succeeded if and only if the exit code is zero. */
  lemma ResultIsExact(db: Db, clock: int, t: TaskId, a: AttemptId, name: string, summary: string, exit: int, event: Option<WorkerEventId>)
    requires Inv(db, clock) && !FinishedAnywhere(db, event) && FinishCommand(db, t, a, name, summary, exit, event).Ok?
    ensures var db' := FinishCommand(db, t, a, name, summary, exit, event).value;
            && t in db.tasks && db.tasks[t].current == a && db.tasks[t].state == Validating && a in db.attempts && a in db'.attempts
            && var was, now := db.attempts[a], db'.attempts[a];
            && db' == db.(attempts := db.attempts[a := was.(runs := now.runs)])
            && HasRunning(was.runs) && !HasRunning(now.runs) && |now.runs| == |was.runs|
            && (forall i | 0 <= i < |was.runs| && was.runs[i].state != RunRunning :: now.runs[i] == was.runs[i])
            && (forall i | 0 <= i < |was.runs| && was.runs[i].state == RunRunning ::
                  && was.runs[i].name == name
                  && now.runs[i] == ValidationRun(name, if exit == 0 then RunSucceeded else RunFailed, summary, if exit == 0 then "" else summary,
                                                  Some(exit), was.runs[i].startEvent, event))
  {
    hide InboxOk, LogFrom, Numbered, Siblings, Drained, PullRequestGate;
    ViewIsGood(db, clock, t);
    var was := db.attempts[a];
    assert was.runs[FirstRunning(was.runs)].state == RunRunning;
  }

  lemma StartIsRecorded(db: Db, t: TaskId, a: AttemptId, name: string, summary: string, event: Option<WorkerEventId>, now: int)
    requires event.Some? && StartCommand(db, t, a, name, summary, event).Ok?
    ensures var db' := StartCommand(db, t, a, name, summary, event).value;
            StartedAnywhere(db', event) && Step(db, StartRunOf(t, a, name, summary, event), now) == db'
  {
    if !StartedAnywhere(db, event) {
      var db' := StartCommand(db, t, a, name, summary, event).value;
      var runs := db'.attempts[a].runs;
      assert StartedBy(db.attempts[a].runs, event) || runs[|runs| - 1].startEvent == event;
      assert StartedBy(runs, event);
    }
  }

  lemma StartStays(db: Db, clock: int, db2: Db, event: Option<WorkerEventId>)
    requires Advances(db, clock, db2) && StartedAnywhere(db, event)
    ensures StartedAnywhere(db2, event)
  {
    hide InboxAdvances, OutboxAdvances, TaskAdvances;
    var a :| a in db.attempts && StartedBy(db.attempts[a].runs, event);
    assert AttemptAdvances(db.attempts[a], db2.attempts[a]);
    var i :| 0 <= i < |db.attempts[a].runs| && db.attempts[a].runs[i].startEvent == event;
    assert db2.attempts[a].runs[i].startEvent == event;
    assert StartedBy(db2.attempts[a].runs, event);
  }

  /** The event that started a command never starts another, on whatever attempt and
      after whatever transactions it is delivered again. */
  lemma CommandsStartOnce(db: Db, clock: int, t: TaskId, a: AttemptId, name: string, summary: string, event: Option<WorkerEventId>, now: int,
                          run: seq<Timed>, t2: TaskId, a2: AttemptId, name2: string, summary2: string)
    requires Inv(db, clock) && clock < now && event.Some? && StartCommand(db, t, a, name, summary, event).Ok?
    requires ValidRun(StartCommand(db, t, a, name, summary, event).value, now, run)
    ensures var db2 := Run(StartCommand(db, t, a, name, summary, event).value, run); StartCommand(db2, t2, a2, name2, summary2, event) == Ok(db2)
  {
    hide Inv, Run, ValidRun, Advances, StartedAnywhere;
    var db1 := StartCommand(db, t, a, name, summary, event).value;
    StartIsRecorded(db, t, a, name, summary, event, now);
    hide Step;
    StepKeeps(db, clock, StartRunOf(t, a, name, summary, event), now);
    RunKeeps(db1, now, run);
    StartStays(db1, now, Run(db1, run), event);
  }

  /** A finished command keeps how it ended for ever, whatever happens afterwards. */
  lemma ResultsAreFinal(db: Db, clock: int, run: seq<Timed>, a: AttemptId, i: nat)
    requires Inv(db, clock) && ValidRun(db, clock, run) && a in db.attempts && i < |db.attempts[a].runs| && db.attempts[a].runs[i].state != RunRunning
    ensures a in Run(db, run).attempts && i < |Run(db, run).attempts[a].runs|
            && var was, now := db.attempts[a].runs[i], Run(db, run).attempts[a].runs[i];
            now == was.(summary := now.summary, error := now.error)
  {
    hide Inv, ValidRun, Run, InboxAdvances, OutboxAdvances, TaskAdvances;
    RunKeeps(db, clock, run);
    assert AttemptAdvances(db.attempts[a], Run(db, run).attempts[a]);
  }
}
