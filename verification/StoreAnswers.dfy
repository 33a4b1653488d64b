/** What the store's smaller requests do and refuse: cancellation, log lines and the
    outbox, failures, and the columns the worker protocol fills in. */
module StoreAnswers {
  import opened Wrappers
  import opened TaskState
  import opened Rows
  import opened Transactions
  import opened StoreSpec
  import opened ForgeInbox
  import opened StoreInvariant
  import opened StoreSteps
  import opened StoreResets
  import opened StoreRuns
  import opened StoreTheorems

  // ------------------------------------------------------------------ cancellation

  /** No transition of the task but the one to CANCELLED is accepted. */
  ghost predicate OnlyCancelledAccepted(db: Db, t: TaskId) {
    forall from, to, change | to != Cancelled :: TransitionTask(db, t, from, to, change).Err?
  }

  /** A request to cancel a task that has not ended is accepted, sets the flag of that task
      and changes nothing else; from then on the task keeps its attempt, no transition but
      the one to CANCELLED is accepted, and whatever happens later its state stays what it
      was or is CANCELLED. */
  lemma CancellationRequestDecides(db: Db, clock: int, t: TaskId, now: int, run: seq<Timed>)
    requires Inv(db, clock) && clock < now && t in db.tasks && !Terminal(db.tasks[t].state)
    requires ValidRun(db.(tasks := db.tasks[t := db.tasks[t].(cancel := true)]), now, run)
    ensures var asked := db.(tasks := db.tasks[t := db.tasks[t].(cancel := true)]);
            && CancelTask(db, t) == Ok(asked) && OnlyCancelledAccepted(asked, t)
            && var later := Run(asked, run);
            && t in later.tasks && later.tasks[t].current == db.tasks[t].current
            && (later.tasks[t].state == db.tasks[t].state || later.tasks[t].state == Cancelled)
            && (later.tasks[t].state != Cancelled ==> OnlyCancelledAccepted(later, t))
  {
    var asked := db.(tasks := db.tasks[t := db.tasks[t].(cancel := true)]);
    CancelRuns(db, t, now);
    hide Inv, Run, ValidRun, Advances, Step, OnlyCancelledAccepted;
    StepKeeps(db, clock, Cancel(t), now);
    CancellationOwnsTheOutcome(asked, now, run, t);
    FlagBlocksTransitions(asked, t);
    FlagBlocksTransitions(Run(asked, run), t);
  }

  lemma CancelRuns(db: Db, t: TaskId, now: int)
    requires t in db.tasks && !Terminal(db.tasks[t].state)
    ensures var asked := db.(tasks := db.tasks[t := db.tasks[t].(cancel := true)]);
            CancelTask(db, t) == Ok(asked) && Step(db, Cancel(t), now) == asked
  {
  }

  lemma FlagBlocksTransitions(db: Db, t: TaskId)
    requires t in db.tasks
    ensures db.tasks[t].cancel ==> OnlyCancelledAccepted(db, t)
  {
    hide CanTransition, ApplyValidation, PullRequestGate;
  }

  /** A task that has ended, or does not exist, cannot be cancelled. */
  lemma CancellationIsRefused(db: Db, t: TaskId)
    requires t in db.tasks ==> Terminal(db.tasks[t].state)
    ensures CancelTask(db, t).Err?
  {
  }

  // ---------------------------------------------------------- log lines and the outbox

  /** A line is accepted exactly for the current attempt while its logs are open. A new
      event of an accepted line waits in the outbox, unprocessed, for that attempt; a known
      one is not queued again; and nothing else changes but the audit log on truncation. */
  lemma LineIsExact(db: Db, t: TaskId, a: AttemptId, event: Option<WorkerEventId>, truncates: bool)
    requires t in db.tasks
    ensures AppendLine(db, t, a, event, truncates).Ok? <==> Owns(db, t, a) && db.tasks[t].current == a && !db.attempts[a].logsExhausted
    ensures AppendLine(db, t, a, event, truncates).Ok? ==>
              var db', r := AppendLine(db, t, a, event, truncates).value, db.tasks[t];
              && db' == db.(tasks := db'.tasks, outbox := db'.outbox)
              && (event.Some? && event.value !in db.outbox ==>
                    db'.outbox == db.outbox[event.value := WorkerEventRow(t, a, false)] && HasPendingWorkerEvents(db', t, a))
              && (event.None? || event.value in db.outbox ==> db'.outbox == db.outbox)
              && db'.tasks == (if truncates then db.tasks[t := r.(log := r.log + [AuditEvent(a, db.attempts[a].state, db.attempts[a].state)])] else db.tasks)
  {
    if AppendLine(db, t, a, event, truncates).Ok? && event.Some? && event.value !in db.outbox {
      var db' := AppendLine(db, t, a, event, truncates).value;
      assert db'.outbox[event.value] == WorkerEventRow(t, a, false);
    }
  }

  /** While a worker event of the current attempt waits, the task is neither retried nor
      followed up. */
  lemma PendingEventsBlockResets(db: Db, t: TaskId, key: Key, plan: Option<Plan>, newId: AttemptId, ids: seq<ForgeEventId>, followUp: Plan, now: int)
    requires t in db.tasks && HasPendingWorkerEvents(db, t, db.tasks[t].current) && followUp.task == t
    ensures var tx := RetryTaskOnce(db, t, key, plan, newId, now); tx.Ok? ==> !tx.value.inserted
    ensures var tx := StartFollowUp(db, ids, followUp, now); tx.Ok? ==> !tx.value.inserted
  {
    hide HasPendingWorkerEvents, NextNumber, ValidIds, ValidateBatch, Blank;
  }

  /** Processing an event changes only its mark; an attempt whose events are all processed
      waits for nothing. */
  lemma ProcessedIsExact(db: Db, w: WorkerEventId)
    ensures var tx := ProcessWorkerEvent(db, w);
            && tx.Ok? && tx.value == db.(outbox := tx.value.outbox) && tx.value.outbox.Keys == db.outbox.Keys
            && (w in db.outbox ==> tx.value.outbox[w] == db.outbox[w].(processed := true))
            && (forall v | v in db.outbox && v != w :: tx.value.outbox[v] == db.outbox[v])
            && (forall t, a | HasPendingWorkerEvents(tx.value, t, a) :: exists v | v in db.outbox && v != w :: !db.outbox[v].processed)
  {
    var db' := ProcessWorkerEvent(db, w).value;
    forall t, a | HasPendingWorkerEvents(db', t, a) ensures exists v | v in db.outbox && v != w :: !db.outbox[v].processed {
      var v :| v in db'.outbox && db'.outbox[v].task == t && db'.outbox[v].attempt == a && !db'.outbox[v].processed;
      assert v in db.outbox && v != w;
    }
  }

  /** Exhausted logs close the attempt to further lines, and only that. */
  lemma ExhaustedLogsAreClosed(db: Db, t: TaskId, a: AttemptId, event: Option<WorkerEventId>, truncates: bool)
    requires Owns(db, t, a)
    ensures var tx := ExhaustLogs(db, t, a);
            && tx.Ok? && tx.value == db.(attempts := db.attempts[a := db.attempts[a].(logsExhausted := true)])
            && AppendLine(tx.value, t, a, event, truncates) == Err(Conflict)
  {
  }

  // ---------------------------------------------------------------------- failures

  /** Failing a batch fails exactly its members; a running one takes its task, if it is
      still at work on this attempt, to cancellation, and a pending one touches no task. */
  lemma FailedBatchIsExact(db: Db, clock: int, ids: seq<ForgeEventId>, message: string, now: int)
    requires Inv(db, clock) && FailBatch(db, ids, message, now).Ok?
    requires ValidIds(ids) && Present(db, ids) && FailureReplay(db, ids, message).NotReplay?
    ensures var db', outcome := FailBatch(db, ids, message, now).value, ValidateOutcome(db, ids, now);
            && outcome.Ok? && db' == db.(tasks := db'.tasks, inbox := db'.inbox) && db'.inbox.Keys == db.inbox.Keys
            && (forall e | e in db.inbox :: db'.inbox[e] == if e in ids then FailedRow(db.inbox[e], message, now) else db.inbox[e])
            && (outcome.value.PendingBatch? ==> db'.tasks == db.tasks)
            && (outcome.value.RunningBatch? ==>
                  var t := outcome.value.task;
                  && t in db.tasks && RunningOf(db', t) == {} && SetOf(ids) == RunningOf(db, t)
                  && db'.tasks == db.tasks[t := db.tasks[t].(cancel := db.tasks[t].cancel || !Terminal(db.tasks[t].state))])
  {
    hide Inv, FailureReplay, ValidateOutcome, Blank;
    FailBatchRows(db, ids, message, now);
    if ValidateOutcome(db, ids, now).value.RunningBatch? {
      RunningOutcomesAreWhole(db, clock, ids, now);
      var outcome := ValidateOutcome(db, ids, now).value;
      var db' := FailBatch(db, ids, message, now).value;
      assert forall e | e in RunningOf(db, outcome.task) :: e in ids;
      assert RunningOf(db', outcome.task) == {};
      OwnerIsCancelled(db, outcome.task, outcome.attempt);
    }
  }

  lemma OwnerIsCancelled(db: Db, t: TaskId, a: AttemptId)
    requires t in db.tasks && db.tasks[t].current == a
    ensures CancelOwner(db, t, a) == db.tasks[t := db.tasks[t].(cancel := db.tasks[t].cancel || !Terminal(db.tasks[t].state))]
  {
    assert db.tasks[t := db.tasks[t]] == db.tasks;
  }

  lemma FailBatchRows(db: Db, ids: seq<ForgeEventId>, message: string, now: int)
    requires FailBatch(db, ids, message, now).Ok? && ValidIds(ids) && Present(db, ids) && FailureReplay(db, ids, message).NotReplay?
    ensures var db', outcome := FailBatch(db, ids, message, now).value, ValidateOutcome(db, ids, now);
            && outcome.Ok? && db' == db.(tasks := db'.tasks, inbox := db'.inbox) && db'.inbox.Keys == db.inbox.Keys
            && (forall e | e in db.inbox :: db'.inbox[e] == if e in ids then FailedRow(db.inbox[e], message, now) else db.inbox[e])
            && db'.tasks == if outcome.value.RunningBatch? then CancelOwner(db, outcome.value.task, outcome.value.attempt) else db.tasks
  {
    hide FailureReplay, ValidateOutcome, Blank, CancelOwner;
  }

  /** Failing a pending event fails it alone. A failed one of a batch keeps its first
      diagnosis: the same one again changes nothing and any other is a conflict. */
  lemma FailOneIsExact(db: Db, e: ForgeEventId, message: string, now: int)
    requires e in db.inbox && !Blank(message) && db.inbox[e].task.Some? == db.inbox[e].attempt.Some?
    ensures var tx, row := FailEvent(db, e, message, now), db.inbox[e];
            && (row.status == EventPending && Unassociated(row) ==> tx == Ok(db.(inbox := db.inbox[e := FailedRow(row, message, now)])))
            && (row.status == EventFailed && row.task.Some? && row.failedAt.Some? ==> tx == if row.lastError == message then Ok(db) else Err(Conflict))
            && (row.status == EventHandled ==> tx == Err(NotFound))
  {
    hide Blank;
  }

  /** What makes a batch outcome acceptable: one batch, all pending, unclaimed and due; or
      all running on one attempt, and all that run on it. */
  lemma OutcomeIsExact(db: Db, ids: seq<ForgeEventId>, now: int)
    requires ValidIds(ids) && Present(db, ids)
    ensures ValidateOutcome(db, ids, now) == Ok(PendingBatch)
       <==> OneBatch(db, ids) && forall e | e in ids :: db.inbox[e].status == EventPending && Unassociated(db.inbox[e]) && Due(db.inbox[e], now)
    ensures forall t, a | ValidateOutcome(db, ids, now) == Ok(RunningBatch(t, a)) :: OneBatch(db, ids) && Owns(db, t, a) && RunningFor(db, t, a) == SetOf(ids)
  {
    hide OneBatch;
    DistinctSize(ids);
    assert forall i | 0 <= i < |ids| :: ids[i] in ids;
    forall t, a | ValidateOutcome(db, ids, now) == Ok(RunningBatch(t, a))
      ensures OneBatch(db, ids) && Owns(db, t, a) && RunningFor(db, t, a) == SetOf(ids)
    {
      assert SetOf(ids) <= RunningFor(db, t, a);
      SameSizeSubset(SetOf(ids), RunningFor(db, t, a));
    }
  }

  // ------------------------------------------------------- columns of an attempt

  /** A command starts only for the current, validating attempt, after all others have
      finished, and is appended as running. */
  lemma StartIsExact(db: Db, t: TaskId, a: AttemptId, name: string, summary: string, event: Option<WorkerEventId>)
    requires !StartedAnywhere(db, event) && StartCommand(db, t, a, name, summary, event).Ok?
    ensures var db' := StartCommand(db, t, a, name, summary, event).value;
            && t in db.tasks && db.tasks[t].current == a && db.tasks[t].state == Validating && !Blank(name)
            && a in db.attempts && !HasRunning(db.attempts[a].runs)
            && db' == db.(attempts := db.attempts[a := db.attempts[a].(runs := db.attempts[a].runs + [ValidationRun(name, RunRunning, summary, "", None, event, None)])])
  {
    assert a in db.attempts && !StartedBy(db.attempts[a].runs, event);
    hide Blank, HasRunning, StartedBy;
    assert db.tasks[t := db.tasks[t]] == db.tasks;
  }

  /** A transition that ends the commands of an attempt finishes exactly the running ones,
      with the given texts, and records the verdict; it fails none that is not running. */
  lemma EndedCommandsAreExact(a: AttemptRow, succeeded: bool, summary: string, error: string)
    ensures var tx := ApplyValidation(a, FinishRuns(succeeded, summary, error));
            && (tx.Ok? <==> succeeded || HasRunning(a.runs))
            && (tx.Ok? ==>
                  && tx.value == a.(runs := tx.value.runs, validation := if succeeded then ValidationSucceeded else ValidationFailed)
                  && !HasRunning(tx.value.runs) && |tx.value.runs| == |a.runs|
                  && forall i | 0 <= i < |a.runs| ::
                       if a.runs[i].state != RunRunning then tx.value.runs[i] == a.runs[i]
                       else && tx.value.runs[i].state == (if succeeded then RunSucceeded else RunFailed)
                            && tx.value.runs[i].summary == (if summary == "" then a.runs[i].summary else summary)
                            && tx.value.runs[i].error == (if error == "" then a.runs[i].error else error)
                            && tx.value.runs[i].exitCode == a.runs[i].exitCode && tx.value.runs[i].name == a.runs[i].name)
  {
  }

  /** The verdict of an attempt is recorded exactly when it has commands and none runs. */
  lemma VerdictIsExact(db: Db, t: TaskId, a: AttemptId, state: ValidationState)
    requires state != NotValidated
    ensures var tx := CompleteValidation(db, t, a, state);
            && (tx.Ok? <==> Owns(db, t, a) && db.attempts[a].runs != [] && forall i | 0 <= i < |db.attempts[a].runs| :: db.attempts[a].runs[i].state != RunRunning)
            && (tx.Ok? ==> tx.value == db.(attempts := db.attempts[a := db.attempts[a].(validation := state)]))
  {
  }

  /** The detail goes to the latest failed command with that name and exit code. */
  lemma DetailIsExact(db: Db, a: AttemptId, name: string, detail: string, exit: int)
    requires a in db.attempts
    ensures var tx, runs := DetailValidation(db, a, name, detail, exit), db.attempts[a].runs;
            && (tx.Ok? <==> exists i | 0 <= i < |runs| :: runs[i].name == name && runs[i].state == RunFailed && runs[i].exitCode == Some(exit))
            && (tx.Ok? ==>
                  exists i | 0 <= i < |runs| ::
                    && runs[i].name == name && runs[i].state == RunFailed && runs[i].exitCode == Some(exit)
                    && (forall j | i < j < |runs| :: runs[j].name != name || runs[j].state != RunFailed || runs[j].exitCode != Some(exit))
                    && tx.value == PutAttempt(db, a, db.attempts[a].(runs := runs[i := runs[i].(summary := detail, error := detail)])))
  {
    var i := LatestFailed(db.attempts[a].runs, name, exit);
    assert i >= 0 ==> db.attempts[a].runs[i].name == name;
  }

  /** The first snapshot is kept: it is saved if there is none, repeated without a change,
      and any other is refused. */
  lemma SnapshotIsKept(db: Db, t: TaskId, a: AttemptId, m: Manifest, n: Manifest)
    requires Owns(db, t, a)
    ensures var saved := SaveSnapshot(db, t, a, m);
            && (db.attempts[a].manifest.None? ==> saved == Ok(PutAttempt(db, a, db.attempts[a].(manifest := Some(m)))))
            && (db.attempts[a].manifest.Some? ==> saved == if db.attempts[a].manifest.value == m then Ok(db) else Err(Conflict))
            && (saved.Ok? ==> SaveSnapshot(saved.value, t, a, n) == if n == m then saved else Err(Conflict))
  {
    assert db.attempts[a := db.attempts[a]] == db.attempts;
    if SaveSnapshot(db, t, a, m).Ok? {
      var db' := SaveSnapshot(db, t, a, m).value;
      assert db'.attempts[a := db'.attempts[a]] == db'.attempts;
    }
  }

  // -------------------------------------------------------------------- creation

  /** A created task is in RECEIVED on its blank first attempt, and nothing else changes
      but its key. */
  lemma CreateIsExact(db: Db, key: Key, repository: string, prompt: string, t: TaskId, a: AttemptId)
    requires var tx := CreateTaskOnce(db, key, repository, prompt, t, a); tx.Ok? && tx.value.inserted
    ensures var tx := CreateTaskOnce(db, key, repository, prompt, t, a).value;
            && tx.id == t && t !in db.tasks && a !in db.attempts && (key != "" ==> key !in db.createIntents) && !Blank(repository) && !Blank(prompt)
            && tx.db == db.(tasks := db.tasks[t := TaskRow(Received, a, false, [])],
                            attempts := db.attempts[a := AttemptRow(t, 1, Received, "", "", "", None, false, NotValidated, [], None, None)],
                            createIntents := tx.db.createIntents)
            && tx.db.createIntents == if key != "" then db.createIntents[key := t] else db.createIntents
  {
    hide Blank;
  }

  /** A retry is the one that was planned: the plan names the attempt it replaces, its
      number, and what a running follow-up carries over, and then it has a snapshot. */
  lemma RetryFollowsItsPlan(db: Db, clock: int, t: TaskId, key: Key, plan: Option<Plan>, newId: AttemptId, now: int)
    requires Inv(db, clock) && t in db.tasks && Owns(db, t, db.tasks[t].current)
    requires var tx := RetryTaskOnce(db, t, key, plan, newId, now); tx.Ok? && tx.value.inserted
    ensures var was := db.attempts[db.tasks[t].current];
            && (RunningOf(db, t) != {} ==> plan.Some? && OpenPr(was))
            && (plan.Some? ==>
                  && plan.value.manifest.Some? && plan.value.previous == db.tasks[t].current && plan.value.task == t && plan.value.number == was.number + 1
                  && (if RunningOf(db, t) == {} then plan.value.prompt == plan.value.baseBranch == plan.value.taskBranch == ""
                      else OpenPr(was) && plan.value.prompt == was.prompt && plan.value.baseBranch == was.pr.value.base && plan.value.taskBranch == was.pr.value.head))
  {
    hide TasksOk, AttemptsOk, InboxOk, OutboxOk, IntentsOk, HasPendingWorkerEvents, NextNumber, TaskOk, Together, CanTransition;
    NextNumberIsNext(db, t);
    RunningIsBound(db, clock, t);
  }

  /** A batch that already runs on an attempt of the task is not started again: the attempt
      is returned and nothing changes. */
  lemma FollowUpReplays(db: Db, clock: int, ids: seq<ForgeEventId>, plan: Plan, now: int)
    requires Inv(db, clock) && ValidIds(ids) && Present(db, ids) && OneBatch(db, ids) && plan.task in db.tasks
    requires forall e | e in ids :: db.inbox[e].status == EventRunning && db.inbox[e].task == Some(plan.task)
    ensures var tx, a := StartFollowUp(db, ids, plan, now), db.tasks[plan.task].current;
            a in db.attempts && (db.attempts[a].manifest.Some? ==> tx == Ok(Started(db, a, false)))
  {
    hide AttemptsOk, TasksOk, OpenPr, Together, FollowUpTarget, NextNumber;
    forall i | 0 <= i < |ids| ensures db.inbox[ids[i]].attempt == Some(db.tasks[plan.task].current) && ids[i] in ids {
      assert EventOk(db, db.inbox[ids[i]], clock);
    }
    RunningIsBound(db, clock, plan.task);
    assert ids[0] in RunningOf(db, plan.task);
    CurrentIsOwn(db, plan.task);
  }
}
