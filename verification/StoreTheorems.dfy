/** What the invariant says in the store's own terms: the audit log, the attempts of
    a task, the pull-request gate and lineage, cancellation, and forge batches. */
module StoreTheorems {
  import opened Wrappers
  import opened TaskState
  import opened Rows
  import opened Transactions
  import opened StoreSpec
  import opened ForgeInbox
  import opened StoreInvariant
  import opened StoreSteps
  import opened StoreResets
  import opened StoreRuns

  // ------------------------------------------------------------------- audit log

  function AttemptsUpTo(db: Db, t: TaskId, k: int): set<AttemptId> {
    set a | a in AttemptsOf(db, t) && db.attempts[a].number <= k
  }

  /** The attempts of `t` numbered 1 to k are k in number. */
  lemma {:induction false} NumberedAttempts(db: Db, t: TaskId, k: nat)
    requires AttemptsOk(db)
    requires forall j: nat {:trigger Numbered(db, t, j)} | 1 <= j <= k :: Numbered(db, t, j)
    requires forall a | a in AttemptsOf(db, t) :: db.attempts[a].number >= 1
    ensures |AttemptsUpTo(db, t, k)| == k
  {
    var upTo := AttemptsUpTo(db, t, k);
    if k == 0 {
      assert upTo == {};
    } else {
      hide AttemptOk;
      assert Numbered(db, t, k);
      var a: AttemptId :| NumberOf(db, t, k, a);
      var below := AttemptsUpTo(db, t, k - 1);
      NumberedAttempts(db, t, k - 1);
      forall b: AttemptId | b in upTo ensures b in below + {a} {
        assert Siblings(db, a, b);
      }
      assert a !in below && upTo == below + {a};
    }
  }

  /** In every reachable state the audit log replays from RECEIVED to exactly the
      task's state and current attempt, every edge in it is legal, the attempt changes
      exactly at resets, and its edges number at most 13 per attempt. */
  lemma AuditLogDeterminesState(run: seq<Timed>, clock: int, t: TaskId)
    requires ValidRun(EMPTY, clock, run) && t in Run(EMPTY, run).tasks
    ensures var db := Run(EMPTY, run);
            var r := db.tasks[t];
            && (exists first :: Owns(db, t, first) && ReplayLog(r.log, first) == Some(Cursor(r.state, r.current, |AttemptsOf(db, t)|)))
            && Edges(r.log) <= 13 * |AttemptsOf(db, t)|
  {
    var db := Run(EMPTY, run);
    ReachableStatesAreValid(run, clock);
    hide Run, ValidRun, Siblings, InboxOk;
    assert TaskOk(db, t);
    var n := db.attempts[db.tasks[t].current].number;
    forall a | a in AttemptsOf(db, t) ensures 1 <= db.attempts[a].number <= n {
      assert AttemptOk(db, a);
    }
    NumberedAttempts(db, t, n);
    assert AttemptsOf(db, t) == AttemptsUpTo(db, t, n);
    var first :| LogFrom(db, t, first);
    EdgesAreBounded(db.tasks[t].log, first);
  }

  // ------------------------------------------------------------ superseded attempts

  /** Attempt numbers are exactly 1..n; the current attempt is number n and shares the
      task's state; all others have ended, drained and processed. */
  lemma AttemptsAreNumbered(run: seq<Timed>, clock: int, a: AttemptId)
    requires ValidRun(EMPTY, clock, run) && a in Run(EMPTY, run).attempts
    ensures var db := Run(EMPTY, run);
            var row := db.attempts[a];
            && row.task in db.tasks && 1 <= row.number <= |AttemptsOf(db, row.task)|
            && (forall b | b in AttemptsOf(db, row.task) && db.attempts[b].number == row.number :: a == b)
            && (row.number == |AttemptsOf(db, row.task)| <==> db.tasks[row.task].current == a)
            && (db.tasks[row.task].current == a ==> row.state == db.tasks[row.task].state)
            && (db.tasks[row.task].current != a ==>
                  (row.state == Failed || PullRequestOpen(row.state)) && row.logsExhausted && !HasPendingWorkerEvents(db, row.task, a))
  {
    var db := Run(EMPTY, run);
    ReachableStatesAreValid(run, clock);
    hide Run, ValidRun, InboxOk, LogFrom, Numbered, HasPendingWorkerEvents;
    assert AttemptOk(db, a);
    var t := db.attempts[a].task;
    assert TaskOk(db, t);
    var n := db.attempts[db.tasks[t].current].number;
    forall b | b in AttemptsOf(db, t) ensures 1 <= db.attempts[b].number <= n && (db.attempts[b].number == db.attempts[a].number ==> a == b) {
      assert AttemptOk(db, b) && Siblings(db, a, b);
    }
    assert Siblings(db, a, db.tasks[t].current);
    NumberedAttempts(db, t, n);
    assert AttemptsOf(db, t) == AttemptsUpTo(db, t, n);
  }

  /** A superseded attempt never accepts another log line, and its evidence is frozen. */
  lemma SupersededIsFrozen(db: Db, clock: int, run: seq<Timed>, a: AttemptId, event: Option<WorkerEventId>, truncates: bool)
    requires Inv(db, clock) && ValidRun(db, clock, run) && Superseded(db, a)
    ensures var later := Run(db, run);
            && a in later.attempts && FrozenAs(db.attempts[a], later.attempts[a])
            && AppendLine(later, db.attempts[a].task, a, event, truncates) == Err(Conflict)
            && (forall w | w in later.outbox && later.outbox[w].attempt == a :: w in db.outbox)
  {
    RunKeeps(db, clock, run);
    hide Inv, Run, ValidRun, FrozenAs;
    assert Superseded(Run(db, run), a);
  }

  /** The validation commands of an attempt never overlap: at most one is running. */
  lemma CommandsNeverOverlap(run: seq<Timed>, clock: int, a: AttemptId, i: nat, j: nat)
    requires ValidRun(EMPTY, clock, run) && a in Run(EMPTY, run).attempts
    requires var runs := Run(EMPTY, run).attempts[a].runs; i < |runs| && j < |runs| && runs[i].state == runs[j].state == RunRunning
    ensures i == j
  {
    ReachableStatesAreValid(run, clock);
    hide Run, ValidRun;
    assert AttemptOk(Run(EMPTY, run), a);
  }

  // ------------------------------------------------------- pull-request gate, lineage

  /** Every attempt from PR_OPEN to READY has its commit pushed and its pull request
      open on the same branch. */
  lemma GateHolds(run: seq<Timed>, clock: int, a: AttemptId)
    requires ValidRun(EMPTY, clock, run) && a in Run(EMPTY, run).attempts && PullRequestOpen(Run(EMPTY, run).attempts[a].state)
    ensures PullRequestGate(Run(EMPTY, run).attempts[a])
  {
    ReachableStatesAreValid(run, clock);
    hide Run, ValidRun;
    assert AttemptOk(Run(EMPTY, run), a);
  }

  /** All open pull requests of a task on the same branches are the same one. */
  lemma LineageHolds(run: seq<Timed>, clock: int, a: AttemptId, b: AttemptId)
    requires ValidRun(EMPTY, clock, run)
    requires var db := Run(EMPTY, run);
             && a in db.attempts && b in db.attempts && db.attempts[a].task == db.attempts[b].task
             && OpenPr(db.attempts[a]) && OpenPr(db.attempts[b]) && SameBranches(db.attempts[a].pr.value, db.attempts[b].pr.value)
    ensures var db := Run(EMPTY, run); db.attempts[a].pr.value.number == db.attempts[b].pr.value.number
  {
    ReachableStatesAreValid(run, clock);
    hide Run, ValidRun;
    assert Siblings(Run(EMPTY, run), a, b);
  }

  /** Pushed Git rows never change and open pull requests never close or change
      identity, whatever happens afterwards. */
  lemma EvidenceIsFinal(db: Db, clock: int, run: seq<Timed>, a: AttemptId)
    requires Inv(db, clock) && ValidRun(db, clock, run) && a in db.attempts
    ensures var was := db.attempts[a];
            a in Run(db, run).attempts
            && var now := Run(db, run).attempts[a];
            && (PushedGit(was) ==> now.git == was.git && now.pr == was.pr)
            && (OpenPr(was) ==> OpenPr(now) && now.pr.value.number == was.pr.value.number && SameBranches(now.pr.value, was.pr.value))
  {
    RunKeeps(db, clock, run);
    hide Inv, Run, ValidRun;
  }

  /** Retrying a running follow-up never meets "no open pull request": a planned
      retry of any retryable task succeeds as planned and carries the batch over. */
  lemma PlannedRetrySucceeds(db: Db, clock: int, t: TaskId, key: Key, id: AttemptId, m: Manifest, now: int)
    requires Inv(db, clock) && id !in db.attempts && (key == "" || (t, key) !in db.retryIntents)
    requires t in db.tasks && Owns(db, t, db.tasks[t].current) && db.tasks[t].state == Failed && db.attempts[db.tasks[t].current].logsExhausted
    requires !HasPendingWorkerEvents(db, t, db.tasks[t].current)
    ensures var plan := PlanRetry(db, t, id, m);
            && plan.Ok?
            && var tx := RetryTaskOnce(db, t, key, Some(plan.value), id, now);
            && tx.Ok? && tx.value.inserted && tx.value.id == id
            && var db' := tx.value.db;
            && db'.tasks[t].current == id && db'.tasks[t].state == Queued
            && RunningOf(db', t) == RunningOf(db, t)
            && (forall e | e in RunningOf(db, t) :: db'.inbox[e].attempt == Some(id))
            && (RunningOf(db, t) != {} ==> db'.attempts[id].pr == db.attempts[db.tasks[t].current].pr && OpenPr(db'.attempts[id]))
  {
    hide TaskOk, AttemptOk, Siblings, EventOk, Together, HasPendingWorkerEvents, OpenPr, NextNumber;
    CurrentIsOwn(db, t);
    RunningIsBound(db, clock, t);
    RetryRebinds(db, clock, t, id, now);
    var db' := RetryTaskOnce(db, t, key, Some(PlanRetry(db, t, id, m).value), id, now).value.db;
    if RunningOf(db, t) != {} {
      OpenIsCopied(db'.attempts[id], db.attempts[db.tasks[t].current]);
    }
  }

  // ------------------------------------------------------------------- cancellation

  /** Once cancellation is requested, the state can only become CANCELLED, which
      nothing leaves. */
  lemma CancellationOwnsTheOutcome(db: Db, clock: int, run: seq<Timed>, t: TaskId)
    requires Inv(db, clock) && ValidRun(db, clock, run) && t in db.tasks && (db.tasks[t].cancel || db.tasks[t].state == Cancelled)
    ensures var later := Run(db, run);
            && t in later.tasks && later.tasks[t].current == db.tasks[t].current
            && (later.tasks[t].state == db.tasks[t].state || later.tasks[t].state == Cancelled)
            && (later.tasks[t].state != Cancelled ==> later.tasks[t].cancel)
  {
    RunKeeps(db, clock, run);
    hide Inv, Run, ValidRun;
  }

  // ---------------------------------------------------------------------- forge batches

  /** Pending events are unassociated; the running events of a task are at most 32, all
      bound to its current attempt, which has an open pull request, and if there are
      several they are reviews of one commit. */
  lemma ForgeBatchIntegrity(run: seq<Timed>, clock: int, t: TaskId, e: ForgeEventId, f: ForgeEventId)
    requires ValidRun(EMPTY, clock, run) && e in Run(EMPTY, run).inbox && f in RunningOf(Run(EMPTY, run), t)
    ensures var db := Run(EMPTY, run);
            && (db.inbox[e].status == EventPending ==> Unassociated(db.inbox[e]))
            && |RunningOf(db, t)| <= BATCH_SIZE
            && t in db.tasks && db.inbox[f].attempt == Some(db.tasks[t].current)
            && db.tasks[t].current in db.attempts && OpenPr(db.attempts[db.tasks[t].current])
            && (e in RunningOf(db, t) && e != f ==> db.inbox[e].kind == db.inbox[f].kind == ReviewComment && SameBatch(db.inbox[e], db.inbox[f]))
  {
    var db := Run(EMPTY, run);
    ReachableStatesAreValid(run, clock);
    hide Run, ValidRun, TasksOk, AttemptsOk, OpenPr;
    assert EventOk(db, db.inbox[e], ClockAfter(clock, run)) && EventOk(db, db.inbox[f], ClockAfter(clock, run));
    assert e != f ==> Together(db.inbox[e], db.inbox[f]) && Together(db.inbox[f], db.inbox[e]);
  }

  /** Failing one running event fails its whole batch and cancels the task if it is
      still working on it; nothing else changes. */
  lemma FailOneFailsAll(db: Db, clock: int, t: TaskId, e: ForgeEventId, message: string, now: int)
    requires Inv(db, clock) && e in RunningOf(db, t) && !Blank(message)
    ensures var tx := FailEvent(db, e, message, now);
            && tx.Ok? && RunningOf(tx.value, t) == {}
            && (forall f | f in RunningOf(db, t) :: tx.value.inbox[f] == FailedRow(db.inbox[f], message, now))
            && (forall f | f in db.inbox && f !in RunningOf(db, t) :: tx.value.inbox[f] == db.inbox[f])
            && t in db.tasks && tx.value.tasks == db.tasks[t := db.tasks[t].(cancel := db.tasks[t].cancel || !Terminal(db.tasks[t].state))]
  {
    hide TasksOk, AttemptsOk, Blank, OpenPr, Together;
    assert EventOk(db, db.inbox[e], clock);
    RunningIsBound(db, clock, t);
  }

  lemma SameSizeSubset<T>(s: set<T>, t: set<T>)
    requires s <= t && |s| == |t|
    ensures s == t
  {
    assert t == s + (t - s);
  }

  lemma {:induction false} DistinctSize<T>(s: seq<T>)
    requires Distinct(s)
    ensures |SetOf(s)| == |s|
  {
    if s != [] {
      DistinctSize(s[1..]);
      assert SetOf(s) == {s[0]} + SetOf(s[1..]);
    }
  }

  /** A batch operation on running events must name the whole batch. */
  lemma RunningOutcomesAreWhole(db: Db, clock: int, ids: seq<ForgeEventId>, now: int)
    requires Inv(db, clock) && ValidIds(ids) && Present(db, ids)
    requires ValidateOutcome(db, ids, now).Ok? && ValidateOutcome(db, ids, now).value.RunningBatch?
    ensures var outcome := ValidateOutcome(db, ids, now).value;
            && IsCurrent(db, outcome.attempt) && db.attempts[outcome.attempt].task == outcome.task
            && SetOf(ids) == RunningOf(db, outcome.task)
  {
    hide TasksOk, AttemptsOk, OpenPr, Together, ValidateOutcome;
    var outcome := ValidateOutcome(db, ids, now).value;
    OutcomeIsUniform(db, ids, now);
    RunningOwner(db, ids, now);
    assert EventOk(db, db.inbox[ids[0]], clock);
    RunningIsBound(db, clock, outcome.task);
    DistinctSize(ids);
    assert SetOf(ids) <= RunningFor(db, outcome.task, outcome.attempt);
    SameSizeSubset(SetOf(ids), RunningFor(db, outcome.task, outcome.attempt));
  }

  lemma RunningOwner(db: Db, ids: seq<ForgeEventId>, now: int)
    requires ids != [] && Present(db, ids) && ValidateOutcome(db, ids, now).Ok? && ValidateOutcome(db, ids, now).value.RunningBatch?
    ensures var outcome := ValidateOutcome(db, ids, now).value; Owns(db, outcome.task, outcome.attempt)
  {
  }

  /** Handled and failed are final; a running event is never pending again. */
  lemma OutcomesAreFinal(db: Db, clock: int, run: seq<Timed>, e: ForgeEventId)
    requires Inv(db, clock) && ValidRun(db, clock, run) && e in db.inbox
    ensures e in Run(db, run).inbox
            && var was, now := db.inbox[e], Run(db, run).inbox[e];
            && (was.status == EventFailed ==> now == was)
            && (was.status == EventHandled ==> now.status == EventHandled && now.task == was.task && now.attempt == was.attempt)
            && (was.status == EventRunning ==> now.status != EventPending && now.task == was.task)
  {
    RunKeeps(db, clock, run);
    hide Inv, Run, ValidRun;
  }

  /** A selected batch may be planned, deferred or failed as it is. */
  lemma DueBatchIsUsable(db: Db, seed: ForgeEventId, ids: seq<ForgeEventId>, t: TaskId, now: int)
    requires DueBatch(db, seed, ids, now)
    ensures ValidateBatch(db, ids, t, now) == Ok(None) && ValidateOutcome(db, ids, now) == Ok(PendingBatch)
  {
    forall i | 0 <= i < |ids| ensures ids[i] in ids {
    }
    if |ids| > 1 {
      assert ids[0] != ids[1];
      assert db.inbox[ids[0]].at.sha != "";
    }
  }

  /** A task whose pull request is open, whose attempt has drained and which nothing else
      claims accepts the planned follow-up of a due batch: all its events run on the new
      attempt, which has the pull request, and nothing else does. */
  lemma PlannedFollowUpSucceeds(db: Db, clock: int, seed: ForgeEventId, ids: seq<ForgeEventId>, t: TaskId, prompt: string, id: AttemptId, m: Manifest, now: int)
    requires Inv(db, clock) && DueBatch(db, seed, ids, now) && !Blank(prompt) && id !in db.attempts
    requires t in db.tasks && Owns(db, t, db.tasks[t].current)
    requires var a := db.attempts[db.tasks[t].current];
             && PullRequestOpen(a.state) && a.pr.Some? && !Blank(a.pr.value.head) && a.logsExhausted
             && !HasPendingWorkerEvents(db, t, db.tasks[t].current) && !db.tasks[t].cancel && RunningOf(db, t) == {}
    ensures var plan := PlanFollowUp(db, ids, t, prompt, id, m, now);
            && plan.Ok? && plan.value.New?
            && var tx := StartFollowUp(db, ids, plan.value.plan, now);
            && tx.Ok? && tx.value.inserted
            && var db' := tx.value.db;
            && db'.tasks[t].current == id && db'.tasks[t].state == Queued && RunningOf(db', t) == SetOf(ids)
            && db'.attempts[id].number == db.attempts[db.tasks[t].current].number + 1
            && db'.attempts[id].pr == db.attempts[db.tasks[t].current].pr
  {
    hide TasksOk, AttemptsOk, InboxOk, LogFrom, Numbered, HasPendingWorkerEvents, ValidateBatch, Blank, DueBatch, NextNumber;
    FollowUpFacts(db, clock, t);
    DueBatchIsUsable(db, seed, ids, t, now);
    BatchIsFresh(db, seed, ids, now);
    FollowUpRebinds(db, ids, t, id, now);
    var plan := PlanFollowUp(db, ids, t, prompt, id, m, now).value.plan;
    assert FollowUpTarget(db, t, plan) == Ok(db.attempts[db.tasks[t].current].pr.value);
    hide FollowUpTarget, RunningOf;
    var db' := StartFollowUp(db, ids, plan, now).value.db;
    RunningByInbox(db.(inbox := db'.inbox), db', t);
  }

  lemma RunningByInbox(db: Db, db': Db, t: TaskId)
    requires db.inbox == db'.inbox
    ensures RunningOf(db, t) == RunningOf(db', t)
  {
  }

  lemma BatchIsFresh(db: Db, seed: ForgeEventId, ids: seq<ForgeEventId>, now: int)
    requires DueBatch(db, seed, ids, now)
    ensures ValidIds(ids) && Present(db, ids) && OneBatch(db, ids) && forall e | e in ids :: db.inbox[e].status == EventPending
  {
    DueBatchIsUsable(db, seed, ids, 0, now);
  }

  lemma FollowUpFacts(db: Db, clock: int, t: TaskId)
    requires Inv(db, clock) && t in db.tasks && Owns(db, t, db.tasks[t].current)
    requires PullRequestOpen(db.attempts[db.tasks[t].current].state)
    ensures var a := db.attempts[db.tasks[t].current];
            && OpenPr(a) && a.pr.value.number > 0 && db.tasks[t].state == a.state
            && NextNumber(db, t) == a.number + 1
  {
    NextNumberIsNext(db, t);
    assert AttemptOk(db, db.tasks[t].current);
  }

  // -------------------------------------------------------------------- idempotency

  lemma RetryRecords(db: Db, t: TaskId, key: Key, plan: Option<Plan>, id: AttemptId, now: int)
    requires key != "" && RetryTaskOnce(db, t, key, plan, id, now).Ok?
    ensures var first := RetryTaskOnce(db, t, key, plan, id, now).value;
            && (t, key) in first.db.retryIntents && first.db.retryIntents[(t, key)] == first.id
            && Step(db, Retry(t, key, plan, id), now) == first.db
  {
    hide Retryable, NextNumber, Rebound;
  }

  lemma RetryReplays(db: Db, t: TaskId, key: Key, plan: Option<Plan>, id: AttemptId, now: int)
    requires key != "" && (t, key) in db.retryIntents
    ensures RetryTaskOnce(db, t, key, plan, id, now) == Ok(Started(db, db.retryIntents[(t, key)], false))
  {
    hide Retryable, NextNumber, Rebound;
  }

  lemma IntentsStay(db: Db, clock: int, run: seq<Timed>)
    requires Inv(db, clock) && ValidRun(db, clock, run)
    ensures IntentsAdvance(db, Run(db, run)) && db.tasks.Keys <= Run(db, run).tasks.Keys
  {
    RunKeeps(db, clock, run);
    hide Inv, Run, ValidRun, InboxAdvances, OutboxAdvances, TaskAdvances, AttemptAdvances;
  }

  /** A retry with a key that was used before, at any later time, returns the attempt
      first assigned to it and changes nothing. */
  lemma RetryKeysAreStable(db: Db, clock: int, run: seq<Timed>, t: TaskId, key: Key, plan: Option<Plan>, id: AttemptId, plan2: Option<Plan>, id2: AttemptId, now: int, now2: int)
    requires Inv(db, clock) && clock < now && key != "" && RetryTaskOnce(db, t, key, plan, id, now).Ok?
    requires ValidRun(RetryTaskOnce(db, t, key, plan, id, now).value.db, now, run)
    ensures var first := RetryTaskOnce(db, t, key, plan, id, now).value;
            RetryTaskOnce(Run(first.db, run), t, key, plan2, id2, now2) == Ok(Started(Run(first.db, run), first.id, false))
  {
    hide Inv, Run, ValidRun, Advances, Step, RetryTaskOnce;
    var first := RetryTaskOnce(db, t, key, plan, id, now).value;
    RetryRecords(db, t, key, plan, id, now);
    StepKeeps(db, clock, Retry(t, key, plan, id), now);
    IntentsStay(first.db, now, run);
    RetryReplays(Run(first.db, run), t, key, plan2, id2, now2);
  }

  lemma CreateRecords(db: Db, key: Key, repository: string, prompt: string, t: TaskId, a: AttemptId, now: int)
    requires key != "" && CreateTaskOnce(db, key, repository, prompt, t, a).Ok?
    ensures var first := CreateTaskOnce(db, key, repository, prompt, t, a).value;
            && key in first.db.createIntents && first.db.createIntents[key] == first.id && first.id in first.db.tasks
            && Step(db, Create(key, repository, prompt, t, a), now) == first.db
  {
    hide Blank;
  }

  lemma CreateReplays(db: Db, key: Key, repository: string, prompt: string, t: TaskId, a: AttemptId)
    requires key != "" && key in db.createIntents && db.createIntents[key] in db.tasks
    requires !Blank(key) && !Blank(repository) && !Blank(prompt)
    ensures CreateTaskOnce(db, key, repository, prompt, t, a) == Ok(Started(db, db.createIntents[key], false))
  {
    hide Blank;
  }

  lemma CreateChecks(db: Db, key: Key, repository: string, prompt: string, t: TaskId, a: AttemptId)
    requires key != "" && CreateTaskOnce(db, key, repository, prompt, t, a).Ok?
    ensures !Blank(key) && !Blank(repository) && !Blank(prompt)
  {
    hide Blank;
  }

  /** Creating a task twice with one key creates it once. */
  lemma CreateKeysAreStable(db: Db, clock: int, run: seq<Timed>, key: Key, repository: string, prompt: string, t: TaskId, a: AttemptId, t2: TaskId, a2: AttemptId, now: int)
    requires Inv(db, clock) && clock < now && key != "" && CreateTaskOnce(db, key, repository, prompt, t, a).Ok?
    requires ValidRun(CreateTaskOnce(db, key, repository, prompt, t, a).value.db, now, run)
    ensures var first := CreateTaskOnce(db, key, repository, prompt, t, a).value;
            CreateTaskOnce(Run(first.db, run), key, repository, prompt, t2, a2) == Ok(Started(Run(first.db, run), first.id, false))
  {
    hide Inv, Run, ValidRun, Advances, Step, CreateTaskOnce, Blank;
    var first := CreateTaskOnce(db, key, repository, prompt, t, a).value;
    CreateChecks(db, key, repository, prompt, t, a);
    CreateRecords(db, key, repository, prompt, t, a, now);
    StepKeeps(db, clock, Create(key, repository, prompt, t, a), now);
    IntentsStay(first.db, now, run);
    CreateReplays(Run(first.db, run), key, repository, prompt, t2, a2);
  }
}
