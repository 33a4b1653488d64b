/** Cancellation against everything else that can happen to a task: its lock holder
    works in steps that may stop anywhere, other transactions run between them, and
    the cluster removes Jobs in its own time. Jobs are known by their attempt, whose
    name is deterministic and injective. */
module Cancellation {
  import opened Wrappers
  import opened TaskState
  import opened Rows
  import opened Transactions
  import opened StoreSpec
  import opened ForgeInbox
  import opened StoreInvariant
  import opened StoreSteps
  import opened StoreRuns
  import StoreResets

  /** What the holder of the task's lock is in the middle of. */
  datatype Pc =
    | Free                        // nobody holds the lock
    | Held                        // held, between two programs
    // ensureAttemptResources
    | EnsureChecked(a: AttemptId)     // the first intent check passed
    | EnsureRegistered(a: AttemptId)  // the Secret exists and is registered
    | EnsureCleared(a: AttemptId)     // the second intent check passed
    // reconcileCancellation
    | CancelSeen(a: AttemptId)        // the task was read with cancellation requested
    | CancelDeleted(a: AttemptId)     // the Job was absent or its deletion was requested
    | CancelAbsent(a: AttemptId)      // Job and Pods confirmed absent, Secret removed
    | CancelExhausted(a: AttemptId)   // the logs are marked exhausted
    | CancelListed(a: AttemptId, left: seq<ForgeEventId>)  // running events still to handle

  datatype System = System(db: Db, clock: int, jobs: set<AttemptId>, created: seq<AttemptId>, pc: Pc)

  datatype Action =
    | Acquire
    | Release                // also a crash: nothing but the durable state survives
    | Elsewhere(op: Op)      // any transaction that does not move the task
    | Locked(op: Op)         // any transaction but the last one of a cancellation
    | BeginEnsure(a: AttemptId) | RegisterSecret | ClearIntent | CreateJob
    | BeginCancel | DeleteJob | ConfirmAbsent | ExhaustJobLogs | ListRunning | HandleNext | Confirm
    | Vanish(a: AttemptId)   // a Job goes away

  /** Operations that change which attempt or state a task is in, or ask to cancel it.
      The controller makes them only while it holds the task's lock. */
  predicate MovesTask(op: Op, t: TaskId) {
    match op
    case Retry(u, _, _, _) => u == t
    case FollowUp(_, plan) => plan.task == t
    case Cancel(u) => u == t
    case Move(u, _, _, _) => u == t
    case _ => false
  }

  predicate Confirms(op: Op, t: TaskId) {
    op.Move? && op.task == t && op.to == Cancelled
  }

  ghost function Transact(s: System, op: Op): System {
    s.(db := Step(s.db, op, s.clock + 1), clock := s.clock + 1)
  }

  /** `currentResourceIntent`. */
  predicate Intended(db: Db, t: TaskId, a: AttemptId) {
    t in db.tasks && !db.tasks[t].cancel && !Terminal(db.tasks[t].state) && db.tasks[t].current == a
  }

  /** One step; a step that is not possible changes nothing. */
  ghost function Do(s: System, t: TaskId, act: Action): System {
    match act
    case Acquire => if s.pc.Free? then s.(pc := Held) else s
    case Release => s.(pc := Free)
    case Elsewhere(op) => if Disciplined(s.db, op) && !MovesTask(op, t) then Transact(s, op) else s
    case Locked(op) => if s.pc.Held? && Disciplined(s.db, op) && !Confirms(op, t) then Transact(s, op) else s
    case Vanish(a) => s.(jobs := s.jobs - {a})
    case BeginEnsure(a) =>
      if !s.pc.Held? then s else s.(pc := if Intended(s.db, t, a) then EnsureChecked(a) else Held)
    case RegisterSecret => if s.pc.EnsureChecked? then s.(pc := EnsureRegistered(s.pc.a)) else s
    case ClearIntent =>
      if !s.pc.EnsureRegistered? then s else s.(pc := if Intended(s.db, t, s.pc.a) then EnsureCleared(s.pc.a) else Held)
    case CreateJob =>
      if !s.pc.EnsureCleared? then s
      else if s.pc.a in s.jobs then s.(pc := Held)
      else s.(jobs := s.jobs + {s.pc.a}, created := s.created + [s.pc.a], pc := Held)
    case BeginCancel =>
      if s.pc.Held? && t in s.db.tasks && s.db.tasks[t].cancel then s.(pc := CancelSeen(s.db.tasks[t].current)) else s
    case DeleteJob => if s.pc.CancelSeen? then s.(pc := CancelDeleted(s.pc.a)) else s
    case ConfirmAbsent =>
      if !s.pc.CancelDeleted? then s else s.(pc := if s.pc.a in s.jobs then Held else CancelAbsent(s.pc.a))
    case ExhaustJobLogs =>
      if s.pc.CancelAbsent? then Transact(s, Exhaust(t, s.pc.a)).(pc := CancelExhausted(s.pc.a)) else s
    case ListRunning =>
      if s.pc.CancelExhausted? then s.(pc := CancelListed(s.pc.a, ListOf(RunningFor(s.db, t, s.pc.a)))) else s
    case HandleNext =>
      if !s.pc.CancelListed? || s.pc.left == [] then s
      else if Apply(s.db, Handled(s.pc.left[0]), s.clock + 1).Err? then s.(pc := Held)
      else Transact(s, Handled(s.pc.left[0])).(pc := CancelListed(s.pc.a, s.pc.left[1..]))
    case Confirm =>
      if !s.pc.CancelListed? || s.pc.left != [] || t !in s.db.tasks then s
      else Transact(s, Move(t, s.db.tasks[t].state, Cancelled, NoChange)).(pc := Held)
  }

  ghost function ListOf(events: set<ForgeEventId>): (list: seq<ForgeEventId>)
    ensures forall e :: e in list <==> e in events
    decreases events
  {
    if events == {} then []
    else
      var e :| e in events;
      [e] + ListOf(events - {e})
  }

  ghost function Steps(s: System, t: TaskId, acts: seq<Action>): System
    decreases |acts|
  {
    if acts == [] then s else Steps(Do(s, t, acts[0]), t, acts[1..])
  }

  // ------------------------------------------------------------------- invariant

  /** What the holder may rely on. */
  ghost predicate PcOk(s: System, t: TaskId) {
    match s.pc
    case Free => true
    case Held => true
    case EnsureChecked(_) => true
    case EnsureRegistered(_) => true
    case EnsureCleared(a) => t in s.db.tasks && s.db.tasks[t].current == a && s.db.tasks[t].state != Cancelled
    case CancelSeen(a) => Cancelling(s.db, t, a)
    case CancelDeleted(a) => Cancelling(s.db, t, a)
    case CancelAbsent(a) => Cancelling(s.db, t, a) && a !in s.jobs
    case CancelExhausted(a) => Cancelling(s.db, t, a) && a !in s.jobs
    case CancelListed(a, left) => Cancelling(s.db, t, a) && a !in s.jobs && forall e | e in RunningOf(s.db, t) :: e in left
  }

  ghost predicate Cancelling(db: Db, t: TaskId, a: AttemptId) {
    t in db.tasks && db.tasks[t].current == a && db.tasks[t].cancel
  }

  /** A cancelled task has no running forge event and no Job for its current attempt. */
  ghost predicate CancelledOk(s: System, t: TaskId) {
    t in s.db.tasks && s.db.tasks[t].state == Cancelled ==>
      RunningOf(s.db, t) == {} && s.db.tasks[t].current !in s.jobs
  }

  ghost predicate SystemOk(s: System, t: TaskId) {
    Inv(s.db, s.clock) && PcOk(s, t) && CancelledOk(s, t)
  }

  // --------------------------------------------------------- what a transaction keeps

  /** The task is where it was; at most it was asked to cancel. */
  ghost predicate Unmoved(db: Db, db': Db, t: TaskId) {
    t in db.tasks ==>
      && t in db'.tasks && db'.tasks[t].state == db.tasks[t].state && db'.tasks[t].current == db.tasks[t].current
      && (db.tasks[t].cancel ==> db'.tasks[t].cancel)
  }

  lemma OthersLeaveTheTask(db: Db, op: Op, now: int, t: TaskId)
    requires !MovesTask(op, t)
    ensures Unmoved(db, Step(db, op, now), t)
  {
    hide Transition, RecordValidationStarted, RecordValidationResult, Retryable, NextNumber, FollowUpTarget, ValidateBatch, ValidateOutcome,
         DeferralReplay, FailureReplay, Blank, CanTransition;
    if op.Move? || op.StartRunOf? || op.FinishRunOf? {
      ViewOpLeaves(db, op, now, t);
    } else if op.Retry? || op.FollowUp? || op.Create? {
      hide RetryTaskOnce, StartFollowUp, CreateTaskOnce;
      ResetLeaves(db, op, now, t);
    } else if op.ErrorOf? || op.ErrorOfBatch? || op.Fail? || op.FailAll? {
      InboxOpLeaves(db, op, now, t);
    }
  }

  lemma ViewOpLeaves(db: Db, op: Op, now: int, t: TaskId)
    requires (op.Move? && op.task != t) || op.StartRunOf? || op.FinishRunOf?
    ensures Unmoved(db, Step(db, op, now), t)
  {
    hide CanTransition, ApplyValidation, HasRunning, FirstRunning, PullRequestGate;
  }

  lemma ResetLeaves(db: Db, op: Op, now: int, t: TaskId)
    requires (op.Retry? && op.task != t) || (op.FollowUp? && op.followUp.task != t) || op.Create?
    ensures Unmoved(db, Step(db, op, now), t)
  {
    hide Retryable, NextNumber, FollowUpTarget, ValidateBatch, Blank, Rebound;
  }

  lemma InboxOpLeaves(db: Db, op: Op, now: int, t: TaskId)
    requires op.ErrorOf? || op.ErrorOfBatch? || op.Fail? || op.FailAll?
    ensures Unmoved(db, Step(db, op, now), t)
  {
    hide ValidateOutcome, DeferralReplay, FailureReplay, Blank, RetryDelay, BatchDelay;
  }

  /** Only the last transaction of a cancellation makes a task CANCELLED. */
  lemma OnlyConfirmCancels(db: Db, clock: int, op: Op, now: int, t: TaskId)
    requires t in db.tasks && db.tasks[t].state != Cancelled && !Confirms(op, t)
    ensures t in Step(db, op, now).tasks ==> Step(db, op, now).tasks[t].state != Cancelled
  {
    if MovesTask(op, t) {
      MoverDoesNotCancel(db, op, now, t);
    } else {
      OthersLeaveTheTask(db, op, now, t);
    }
  }

  lemma MoverDoesNotCancel(db: Db, op: Op, now: int, t: TaskId)
    requires t in db.tasks && db.tasks[t].state != Cancelled && !Confirms(op, t) && MovesTask(op, t)
    ensures t in Step(db, op, now).tasks ==> Step(db, op, now).tasks[t].state != Cancelled
  {
    hide CanTransition, ApplyValidation, PullRequestGate, Retryable, NextNumber, FollowUpTarget, ValidateBatch, Blank, Rebound;
  }

  /** Where the task keeps its attempt, no event starts running for it. */
  lemma NoNewRunning(db: Db, clock: int, db': Db, clock': int, t: TaskId)
    requires Inv(db, clock) && Inv(db', clock') && Advances(db, clock, db')
    requires t in db.tasks && t in db'.tasks && db'.tasks[t].current == db.tasks[t].current
    ensures RunningOf(db', t) <= RunningOf(db, t)
  {
    hide AttemptsOk, OutboxOk, IntentsOk, RowsAdvance, OutboxAdvances, IntentsAdvance, OpenPr, Together;
    assert TaskOk(db, t);
    forall e | e in RunningOf(db', t) ensures e in RunningOf(db, t) {
      assert EventOk(db', db'.inbox[e], clock');
      assert db'.inbox[e].attempt == Some(db.tasks[t].current) && db.tasks[t].current in db.attempts;
      assert !NewlyBound(db, db'.inbox[e]);
    }
  }

  /** A transaction anywhere: the task stays, running events only go, jobs are untouched. */
  lemma TransactKeeps(s: System, t: TaskId, op: Op)
    requires Inv(s.db, s.clock) && Disciplined(s.db, op)
    ensures var s' := Transact(s, op);
            && Inv(s'.db, s'.clock) && Advances(s.db, s.clock, s'.db)
            && (t in s.db.tasks && !MovesTask(op, t) ==> Unmoved(s.db, s'.db, t) && RunningOf(s'.db, t) <= RunningOf(s.db, t))
  {
    hide Inv, Advances, Step, MovesTask;
    StepKeeps(s.db, s.clock, op, s.clock + 1);
    if t in s.db.tasks && !MovesTask(op, t) {
      OthersLeaveTheTask(s.db, op, s.clock + 1, t);
      NoNewRunning(s.db, s.clock, Transact(s, op).db, s.clock + 1, t);
    }
  }

  /** CANCELLED and its guarantees survive any transaction but the one that enters it. */
  lemma CancelledStays(s: System, t: TaskId, op: Op)
    requires SystemOk(s, t) && Disciplined(s.db, op) && !Confirms(op, t)
    ensures CancelledOk(Transact(s, op), t)
  {
    var s' := Transact(s, op);
    hide Inv, Advances, Step, PcOk, Confirms;
    TransactKeeps(s, t, op);
    if t in s.db.tasks {
      if s.db.tasks[t].state != Cancelled {
        OnlyConfirmCancels(s.db, s.clock, op, s.clock + 1, t);
      } else {
        CancelledIsFinal(s.db, s.clock, s'.db, t);
        NoNewRunning(s.db, s.clock, s'.db, s'.clock, t);
      }
    } else {
      NewTasksAreNotCancelled(s.db, op, s.clock + 1, t);
    }
  }

  lemma CancelledIsFinal(db: Db, clock: int, db': Db, t: TaskId)
    requires Advances(db, clock, db') && t in db.tasks && db.tasks[t].state == Cancelled
    ensures t in db'.tasks && db'.tasks[t].current == db.tasks[t].current && db'.tasks[t].state == Cancelled
  {
    hide InboxAdvances, OutboxAdvances, IntentsAdvance, AttemptAdvances;
  }

  lemma NewTasksAreNotCancelled(db: Db, op: Op, now: int, t: TaskId)
    requires t !in db.tasks
    ensures t in Step(db, op, now).tasks ==> Step(db, op, now).tasks[t].state != Cancelled
  {
    if op.Create? {
      hide Blank;
    } else {
      OthersCreateNothing(db, op, now, t);
    }
  }

  lemma OthersCreateNothing(db: Db, op: Op, now: int, t: TaskId)
    requires t !in db.tasks && !op.Create?
    ensures t !in Step(db, op, now).tasks
  {
    hide RetryTaskOnce, StartFollowUp, RecordBatchError, FailBatch, FailEvent, CreateTaskOnce,
         Transition, RecordValidationStarted, RecordValidationResult, RecordPullRequestCandidate, RecordVerifiedPullRequest, CanTransition;
    if op.Retry? {
      RetryCreatesNoTask(db, op.task, op.key, op.plan, op.newAttempt, now, t);
    } else if op.FollowUp? {
      FollowUpCreatesNoTask(db, op.ids, op.followUp, now, t);
    } else if op.ErrorOfBatch? || op.Fail? || op.FailAll? {
      InboxOpCreatesNoTask(db, op, now, t);
    }
  }

  lemma RetryCreatesNoTask(db: Db, u: TaskId, key: Key, plan: Option<Plan>, newId: AttemptId, now: int, t: TaskId)
    requires t !in db.tasks
    ensures var tx := RetryTaskOnce(db, u, key, plan, newId, now); tx.Ok? ==> t !in tx.value.db.tasks
  {
    hide NextNumber, CarriedOver, Rebound;
  }

  lemma FollowUpCreatesNoTask(db: Db, ids: seq<ForgeEventId>, plan: Plan, now: int, t: TaskId)
    requires t !in db.tasks
    ensures var tx := StartFollowUp(db, ids, plan, now); tx.Ok? ==> t !in tx.value.db.tasks
  {
    hide NextNumber, ValidateBatch, Blank;
  }

  lemma InboxOpCreatesNoTask(db: Db, op: Op, now: int, t: TaskId)
    requires t !in db.tasks && (op.ErrorOfBatch? || op.Fail? || op.FailAll?)
    ensures t !in Step(db, op, now).tasks
  {
    hide ValidateOutcome, DeferralReplay, FailureReplay, Blank, BatchDelay;
  }

  // ------------------------------------------------------------------------- steps

  lemma TransactionStep(s: System, t: TaskId, act: Action)
    requires SystemOk(s, t) && (act.Elsewhere? || act.Locked?)
    ensures SystemOk(Do(s, t, act), t)
  {
    hide Inv, Advances, Step, Confirms, CancelledOk;
    if Do(s, t, act) != s {
      hide Do;
      DoTransaction(s, t, act);
      TransactKeeps(s, t, act.op);
      CancelledStays(s, t, act.op);
    }
  }

  lemma DoTransaction(s: System, t: TaskId, act: Action)
    requires (act.Elsewhere? || act.Locked?) && Do(s, t, act) != s
    ensures Do(s, t, act) == Transact(s, act.op) && Disciplined(s.db, act.op)
    ensures act.Elsewhere? ==> !MovesTask(act.op, t)
    ensures act.Locked? ==> s.pc.Held? && !Confirms(act.op, t)
    ensures !MovesTask(act.op, t) ==> !Confirms(act.op, t)
  {
    hide Step, Disciplined;
  }

  /** Steps that only move the holder's program, or the cluster. */
  lemma ProgramStep(s: System, t: TaskId, act: Action)
    requires SystemOk(s, t) && !act.Elsewhere? && !act.Locked? && !act.ExhaustJobLogs? && !act.HandleNext? && !act.Confirm?
    ensures SystemOk(Do(s, t, act), t)
  {
    hide Inv, Step;
    if act.ListRunning? && s.pc.CancelExhausted? {
      ListsAll(s.db, s.clock, t);
    }
  }

  lemma ListsAll(db: Db, clock: int, t: TaskId)
    requires Inv(db, clock) && t in db.tasks
    ensures RunningFor(db, t, db.tasks[t].current) == RunningOf(db, t)
  {
    StoreResets.RunningIsBound(db, clock, t);
  }

  /** The transactions of the cancellation program itself. */
  lemma CancelProgramStep(s: System, t: TaskId, act: Action)
    requires SystemOk(s, t) && (act.ExhaustJobLogs? || act.HandleNext?)
    ensures SystemOk(Do(s, t, act), t)
  {
    hide Inv, Advances, Step, Apply;
    if act.ExhaustJobLogs? && s.pc.CancelAbsent? {
      TransactKeeps(s, t, Exhaust(t, s.pc.a));
      CancelledStays(s, t, Exhaust(t, s.pc.a));
    } else if act.HandleNext? && s.pc.CancelListed? && s.pc.left != [] {
      var op := Handled(s.pc.left[0]);
      TransactKeeps(s, t, op);
      CancelledStays(s, t, op);
      if Apply(s.db, op, s.clock + 1).Ok? {
        HandledIsNotRunning(s.db, s.pc.left[0], s.clock + 1, t);
      }
    }
  }

  lemma HandledIsNotRunning(db: Db, e: ForgeEventId, now: int, t: TaskId)
    requires Apply(db, Handled(e), now).Ok?
    ensures e !in RunningOf(Step(db, Handled(e), now), t)
  {
  }

  lemma ConfirmStep(s: System, t: TaskId)
    requires SystemOk(s, t)
    ensures SystemOk(Do(s, t, Confirm), t)
  {
    hide Inv, Advances, Step;
    if s.pc.CancelListed? && s.pc.left == [] {
      var op := Move(t, s.db.tasks[t].state, Cancelled, NoChange);
      TransactKeeps(s, t, op);
      MoveKeepsAttempt(s.db, t, op.from, s.clock + 1);
      NoNewRunning(s.db, s.clock, Transact(s, op).db, s.clock + 1, t);
    }
  }

  lemma MoveKeepsAttempt(db: Db, t: TaskId, from: State, now: int)
    requires t in db.tasks
    ensures var db' := Step(db, Move(t, from, Cancelled, NoChange), now); t in db'.tasks && db'.tasks[t].current == db.tasks[t].current
  {
    hide CanTransition;
  }

  lemma DoKeeps(s: System, t: TaskId, act: Action)
    requires SystemOk(s, t)
    ensures SystemOk(Do(s, t, act), t)
  {
    hide SystemOk, Do;
    if act.Elsewhere? || act.Locked? {
      TransactionStep(s, t, act);
    } else if act.ExhaustJobLogs? || act.HandleNext? {
      CancelProgramStep(s, t, act);
    } else if act.Confirm? {
      ConfirmStep(s, t);
    } else {
      ProgramStep(s, t, act);
    }
  }

  // ------------------------------------------------------------------- main results

  /** Under every interleaving: when a task is CANCELLED, no forge event is running for
      it and its current attempt has no Job. */
  lemma {:induction false} CancelledTasksAreQuiet(s: System, t: TaskId, acts: seq<Action>)
    requires SystemOk(s, t)
    ensures SystemOk(Steps(s, t, acts), t)
    ensures var later := Steps(s, t, acts);
            t in later.db.tasks && later.db.tasks[t].state == Cancelled ==>
              RunningOf(later.db, t) == {} && later.db.tasks[t].current !in later.jobs
    decreases |acts|
  {
    hide Do;
    if acts != [] {
      DoKeeps(s, t, acts[0]);
      CancelledTasksAreQuiet(Do(s, t, acts[0]), t, acts[1..]);
    }
  }

  /** One step from a state where cancellation was requested. */
  lemma OwnedStep(s: System, t: TaskId, act: Action)
    requires SystemOk(s, t) && t in s.db.tasks && (s.db.tasks[t].cancel || s.db.tasks[t].state == Cancelled)
    ensures var s' := Do(s, t, act);
            && t in s'.db.tasks && s'.db.tasks[t].current == s.db.tasks[t].current
            && (s'.db.tasks[t].state == s.db.tasks[t].state || s'.db.tasks[t].state == Cancelled)
            && (s'.db.tasks[t].cancel || s'.db.tasks[t].state == Cancelled)
            && (s.db.tasks[t].state == Cancelled ==> s'.created == s.created)
            && (s.db.tasks[t].cancel && !s.pc.EnsureCleared? ==> !s'.pc.EnsureCleared?)
  {
    hide Step, Apply, Inv, Advances, Confirms, MovesTask;
    var s' := Do(s, t, act);
    if s'.db != s.db {
      var op := OpOf(s, t, act);
      TransactKeeps(s, t, op);
      RowsOwned(s.db, s.clock, s'.db, t);
    }
  }

  /** The transaction a step makes, if it makes one. */
  ghost function OpOf(s: System, t: TaskId, act: Action): (op: Op)
    ensures Do(s, t, act).db != s.db ==> Do(s, t, act).db == Transact(s, op).db && Disciplined(s.db, op)
  {
    if act.Elsewhere? || act.Locked? then act.op
    else if act.ExhaustJobLogs? && s.pc.CancelAbsent? then Exhaust(t, s.pc.a)
    else if act.HandleNext? && s.pc.CancelListed? && s.pc.left != [] then Handled(s.pc.left[0])
    else if act.Confirm? && t in s.db.tasks then Move(t, s.db.tasks[t].state, Cancelled, NoChange)
    else Observe(t)
  }

  lemma RowsOwned(db: Db, clock: int, db': Db, t: TaskId)
    requires Advances(db, clock, db') && t in db.tasks && (db.tasks[t].cancel || db.tasks[t].state == Cancelled)
    ensures t in db'.tasks && db'.tasks[t].current == db.tasks[t].current
    ensures db'.tasks[t].state == db.tasks[t].state || db'.tasks[t].state == Cancelled
    ensures db'.tasks[t].cancel || db'.tasks[t].state == Cancelled
  {
    hide InboxAdvances, OutboxAdvances, IntentsAdvance, AttemptAdvances;
  }

  /** Once cancellation is requested, whatever happens, the state can only become
      CANCELLED, on the same attempt; and once CANCELLED, no Job is created for the task. */
  lemma {:induction false} CancellationIsFinal(s: System, t: TaskId, acts: seq<Action>)
    requires SystemOk(s, t) && t in s.db.tasks && (s.db.tasks[t].cancel || s.db.tasks[t].state == Cancelled)
    ensures var later := Steps(s, t, acts);
            && t in later.db.tasks && later.db.tasks[t].current == s.db.tasks[t].current
            && (later.db.tasks[t].state == s.db.tasks[t].state || later.db.tasks[t].state == Cancelled)
            && (s.db.tasks[t].state == Cancelled ==> later.db.tasks[t].state == Cancelled && later.created == s.created && s.db.tasks[t].current !in later.jobs)
    decreases |acts|
  {
    hide Do, PcOk, Inv;
    if acts != [] {
      OwnedStep(s, t, acts[0]);
      DoKeeps(s, t, acts[0]);
      CancellationIsFinal(Do(s, t, acts[0]), t, acts[1..]);
    }
  }

  // ---------------------------------------------------------------------- progress

  /** Without a cancellation in the way, the launch program creates the attempt's Job once;
      with one, it never does. */
  lemma LaunchCreatesTheJob(s: System, t: TaskId, a: AttemptId)
    requires s.pc.Held?
    ensures var s' := Do(Do(Do(Do(s, t, BeginEnsure(a)), t, RegisterSecret), t, ClearIntent), t, CreateJob);
            && s'.db == s.db && s'.pc.Held?
            && (Intended(s.db, t, a) ==> s'.jobs == s.jobs + {a} && s'.created == if a in s.jobs then s.created else s.created + [a])
            && (!Intended(s.db, t, a) ==> s' == s)
  {
  }

  ghost predicate ReachesCancelled(s: System, t: TaskId, acts: seq<Action>) {
    t in Steps(s, t, acts).db.tasks && Steps(s, t, acts).db.tasks[t].state == Cancelled
  }

  /** The rest of the program, once the running events are listed. */
  lemma {:induction false} ListedReachesCancelled(s: System, t: TaskId) returns (acts: seq<Action>)
    requires s.pc.CancelListed? && t in s.db.tasks && SystemOk(s, t) && s.db.tasks[t].cancel
    requires forall e | e in s.pc.left :: e in s.db.inbox && s.db.inbox[e].status != EventFailed
    ensures ReachesCancelled(s, t, acts)
    decreases |s.pc.left|
  {
    if s.pc.left == [] {
      acts := [Confirm];
      assert acts[1..] == [];
      ConfirmSucceeds(s, t);
      assert Steps(s, t, acts) == Steps(Do(s, t, Confirm), t, []);
    } else {
      var s' := Do(s, t, HandleNext);
      DoKeeps(s, t, HandleNext);
      HandleSucceeds(s, t);
      hide Do, SystemOk;
      var rest := ListedReachesCancelled(s', t);
      acts := [HandleNext] + rest;
      assert acts[1..] == rest;
    }
  }

  lemma ConfirmSucceeds(s: System, t: TaskId)
    requires s.pc.CancelListed? && s.pc.left == [] && t in s.db.tasks && SystemOk(s, t) && s.db.tasks[t].cancel
    ensures var s' := Do(s, t, Confirm); t in s'.db.tasks && s'.db.tasks[t].state == Cancelled
  {
    hide InboxOk, AttemptsOk, PcOk, CancelledOk, LogFrom, Numbered, Adjacent;
    assert TaskOk(s.db, t);
  }

  lemma HandleSucceeds(s: System, t: TaskId)
    requires s.pc.CancelListed? && s.pc.left != [] && t in s.db.tasks && s.db.tasks[t].cancel
    requires forall e | e in s.pc.left :: e in s.db.inbox && s.db.inbox[e].status != EventFailed
    ensures var s' := Do(s, t, HandleNext);
            && s'.pc == CancelListed(s.pc.a, s.pc.left[1..]) && s'.db.tasks == s.db.tasks
            && forall e | e in s'.pc.left :: e in s'.db.inbox && s'.db.inbox[e].status != EventFailed
  {
  }

  /** A cancelling task can always be finished: if its Job goes away once deleted, and
      the program runs through, the task becomes CANCELLED. */
  lemma CancellationCompletes(s: System, t: TaskId) returns (acts: seq<Action>)
    requires SystemOk(s, t) && s.pc.Free? && t in s.db.tasks && s.db.tasks[t].cancel
    ensures ReachesCancelled(s, t, acts)
  {
    var a := s.db.tasks[t].current;
    var opening := [Acquire, BeginCancel, DeleteJob, Vanish(a), ConfirmAbsent, ExhaustJobLogs, ListRunning];
    CancelledTasksAreQuiet(s, t, opening);
    var s' := Steps(s, t, opening);
    OpeningLists(s, t);
    hide Do, SystemOk, Steps;
    var rest := ListedReachesCancelled(s', t);
    acts := opening + rest;
    StepsAppend(s, t, opening, rest);
  }

  lemma {:induction false} StepsAppend(s: System, t: TaskId, acts: seq<Action>, more: seq<Action>)
    ensures Steps(s, t, acts + more) == Steps(Steps(s, t, acts), t, more)
    decreases |acts|
  {
    hide Do;
    if acts == [] {
      assert acts + more == more;
    } else {
      StepsAppend(Do(s, t, acts[0]), t, acts[1..], more);
      assert (acts + more)[1..] == acts[1..] + more;
    }
  }

  lemma OpeningLists(s: System, t: TaskId)
    requires SystemOk(s, t) && s.pc.Free? && t in s.db.tasks && s.db.tasks[t].cancel
    ensures var a := s.db.tasks[t].current;
            var s' := Steps(s, t, [Acquire, BeginCancel, DeleteJob, Vanish(a), ConfirmAbsent, ExhaustJobLogs, ListRunning]);
            && s'.pc.CancelListed? && t in s'.db.tasks && s'.db.tasks[t].cancel
            && forall e | e in s'.pc.left :: e in s'.db.inbox && s'.db.inbox[e].status != EventFailed
  {
    hide SystemOk, Step;
    var a := s.db.tasks[t].current;
    var s4 := s.(pc := CancelDeleted(a), jobs := s.jobs - {a});
    FourSteps(s, t);
    var s6 := Transact(s4, Exhaust(t, a)).(pc := CancelExhausted(a));
    ExhaustKeepsTasks(s.db, t, a, s.clock + 1);
    assert Do(s4, t, ConfirmAbsent) == s4.(pc := CancelAbsent(a));
    assert Do(s4.(pc := CancelAbsent(a)), t, ExhaustJobLogs) == s6;
    ThreeSteps(s4, t);
    StepsAppend(s, t, [Acquire, BeginCancel, DeleteJob, Vanish(a)], [ConfirmAbsent, ExhaustJobLogs, ListRunning]);
    assert [Acquire, BeginCancel, DeleteJob, Vanish(a)] + [ConfirmAbsent, ExhaustJobLogs, ListRunning]
        == [Acquire, BeginCancel, DeleteJob, Vanish(a), ConfirmAbsent, ExhaustJobLogs, ListRunning];
  }

  lemma ExhaustKeepsTasks(db: Db, t: TaskId, a: AttemptId, now: int)
    ensures Step(db, Exhaust(t, a), now).tasks == db.tasks && Step(db, Exhaust(t, a), now).inbox == db.inbox
  {
  }

  lemma FourSteps(s: System, t: TaskId)
    requires s.pc.Free? && t in s.db.tasks && s.db.tasks[t].cancel
    ensures var a := s.db.tasks[t].current;
            Steps(s, t, [Acquire, BeginCancel, DeleteJob, Vanish(a)]) == s.(pc := CancelDeleted(a), jobs := s.jobs - {a})
  {
    hide Step;
    var a := s.db.tasks[t].current;
    var acts := [Acquire, BeginCancel, DeleteJob, Vanish(a)];
    assert acts[1..] == [BeginCancel, DeleteJob, Vanish(a)] && acts[1..][1..] == [DeleteJob, Vanish(a)];
    assert acts[1..][1..][1..] == [Vanish(a)] && acts[1..][1..][1..][1..] == [];
    var s3 := s.(pc := CancelDeleted(a));
    assert Steps(s3, t, [Vanish(a)]) == Steps(Do(s3, t, Vanish(a)), t, []);
    assert Steps(s.(pc := CancelSeen(a)), t, [DeleteJob, Vanish(a)]) == Steps(s3, t, [Vanish(a)]);
    assert Steps(s.(pc := Held), t, [BeginCancel, DeleteJob, Vanish(a)]) == Steps(s.(pc := CancelSeen(a)), t, [DeleteJob, Vanish(a)]);
  }

  lemma ThreeSteps(s: System, t: TaskId)
    ensures Steps(s, t, [ConfirmAbsent, ExhaustJobLogs, ListRunning]) == Do(Do(Do(s, t, ConfirmAbsent), t, ExhaustJobLogs), t, ListRunning)
  {
    hide Do;
    var acts := [ConfirmAbsent, ExhaustJobLogs, ListRunning];
    assert acts[1..] == [ExhaustJobLogs, ListRunning] && acts[1..][1..] == [ListRunning] && acts[1..][1..][1..] == [];
    var s1 := Do(s, t, ConfirmAbsent);
    var s2 := Do(s1, t, ExhaustJobLogs);
    assert Steps(s2, t, [ListRunning]) == Steps(Do(s2, t, ListRunning), t, []);
    assert Steps(s1, t, [ExhaustJobLogs, ListRunning]) == Steps(s2, t, [ListRunning]);
  }
}
