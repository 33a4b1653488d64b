/** Worker events against the whole store: however far the handling of an event gets,
    and whatever it decides, the store's cross-table invariant holds and everything
    established earlier stays. */
module WorkerStore {
  import opened Wrappers
  import opened TaskState
  import opened Rows
  import opened Transactions
  import opened WorkerEvents
  import opened StoreSpec
  import opened ForgeInbox
  import opened StoreInvariant
  import opened StoreSteps

  /** A view of task `t` that the store could hold, given that it held `db`. */
  ghost predicate Sound(db: Db, clock: int, t: TaskId, v: View)
    requires t in db.tasks
  {
    && v.task.current == db.tasks[t].current
    && Inv(Put(db, t, v), clock) && Advances(db, clock, Put(db, t, v))
  }

  /** The branches of a candidate are those the prior pull requests were read for. */
  ghost predicate PriorRead(db: Db, t: TaskId, env: Environment)
    requires t in db.tasks && db.tasks[t].current in db.attempts
  {
    var m := db.attempts[db.tasks[t].current].manifest;
    m.Some? ==> env.prior == PriorPullRequest(db, db.tasks[t].current, m.value.taskBranch, m.value.baseBranch)
  }

  lemma StartSound(db: Db, clock: int, t: TaskId)
    requires Inv(db, clock) && t in db.tasks && TaskOk(db, t)
    ensures Sound(db, clock, t, ViewOf(db, t))
  {
    hide Inv, Advances, TaskOk;
    assert Owns(db, t, db.tasks[t].current) by { CurrentOwned(db, t); }
    assert Put(db, t, ViewOf(db, t)) == db;
    AdvancesIsReflexive(db, clock);
  }

  lemma CurrentOwned(db: Db, t: TaskId)
    requires t in db.tasks && TaskOk(db, t)
    ensures Owns(db, t, db.tasks[t].current)
  {
  }

  lemma SoundIsGood(db: Db, clock: int, t: TaskId, v: View)
    requires t in db.tasks && Sound(db, clock, t, v)
    ensures GoodView(v) && TaskOk(Put(db, t, v), t) && ViewOf(Put(db, t, v), t) == v
  {
    hide Inv, Advances, TaskOk, GoodView;
    ViewIsGood(Put(db, t, v), clock, t);
  }

  lemma StepKeepsAttempt(v: View, w: View)
    requires ViewStep(v, w)
    ensures w.task.current == v.task.current
  {
  }

  /** A change to the task's own rows. */
  lemma StepSound(db: Db, clock: int, t: TaskId, v: View, w: View)
    requires t in db.tasks && Sound(db, clock, t, v) && ViewStep(v, w)
    ensures Sound(db, clock, t, w)
  {
    hide Inv, Advances, TaskOk, GoodView, ViewStep;
    SoundIsGood(db, clock, t, v);
    StepKeepsAttempt(v, w);
    var mid := Put(db, t, v);
    PutKeeps(mid, clock, t, w);
    assert Put(mid, t, w) == Put(db, t, w);
    AdvancesIsTransitive(db, clock, mid, clock, Put(db, t, w));
  }

  /** A change to the current attempt's evidence. */
  lemma EvidenceSound(db: Db, clock: int, t: TaskId, v: View, row: AttemptRow)
    requires t in db.tasks && Sound(db, clock, t, v) && v.task.current in Put(db, t, v).attempts
    requires AttemptStep(Put(db, t, v), v.task.current, row)
    ensures Sound(db, clock, t, v.(attempt := row))
  {
    hide Inv, Advances, AttemptStep;
    var mid := Put(db, t, v);
    PutAttemptKeeps(mid, clock, v.task.current, row);
    assert PutAttempt(mid, v.task.current, row) == Put(db, t, v.(attempt := row));
    AdvancesIsTransitive(db, clock, mid, clock, Put(db, t, v.(attempt := row)));
  }

  // ------------------------------------------------------------- single transactions

  lemma TransitionSound(db: Db, clock: int, t: TaskId, v: View, budget: int, to: State)
    requires t in db.tasks && Sound(db, clock, t, v)
    ensures Sound(db, clock, t, CommitTransition(v, budget, to).v)
  {
    SoundIsGood(db, clock, t, v);
    TransitionStep(v, v.task.state, to, NoChange);
    hide Sound, Transition, ViewStep, GoodView;
    var tx := Transition(v, v.task.state, to, NoChange);
    if tx.Ok? {
      StepSound(db, clock, t, v, tx.value);
    }
  }

  lemma FailReceiptSound(db: Db, clock: int, t: TaskId, v: View, budget: int)
    requires t in db.tasks && Sound(db, clock, t, v)
    ensures Sound(db, clock, t, FailReceipt(v, budget).v)
  {
    hide Sound, CommitTransition;
    TransitionSound(db, clock, t, v, budget, Failed);
  }

  lemma StartCommandSound(db: Db, clock: int, t: TaskId, v: View, name: string, text: string, event: Option<WorkerEventId>)
    requires t in db.tasks && Sound(db, clock, t, v)
    ensures var tx := RecordValidationStarted(v, name, text, event); tx.Ok? ==> Sound(db, clock, t, tx.value)
    ensures var tx := Transition(v, AgentRunning, Validating, StartRun(name, text, event)); tx.Ok? ==> Sound(db, clock, t, tx.value)
  {
    SoundIsGood(db, clock, t, v);
    CommandStep(v, name, text, 0, event);
    TransitionStep(v, AgentRunning, Validating, StartRun(name, text, event));
    hide Sound, Transition, RecordValidationStarted, ViewStep, GoodView;
    var tx := RecordValidationStarted(v, name, text, event);
    if tx.Ok? {
      StepSound(db, clock, t, v, tx.value);
    }
    var tr := Transition(v, AgentRunning, Validating, StartRun(name, text, event));
    if tr.Ok? {
      StepSound(db, clock, t, v, tr.value);
    }
  }

  lemma FinishCommandSound(db: Db, clock: int, t: TaskId, v: View, name: string, text: string, exit: int, event: Option<WorkerEventId>)
    requires t in db.tasks && Sound(db, clock, t, v)
    ensures var tx := RecordValidationResult(v, name, text, exit, event); tx.Ok? ==> Sound(db, clock, t, tx.value)
  {
    SoundIsGood(db, clock, t, v);
    CommandStep(v, name, text, exit, event);
    hide Sound, RecordValidationResult, ViewStep, GoodView;
    var tx := RecordValidationResult(v, name, text, exit, event);
    if tx.Ok? {
      StepSound(db, clock, t, v, tx.value);
    }
  }

  /** Changing only the validation state and runs of the attempt. */
  lemma RunsStep(v: View, w: View)
    requires GoodView(v) && w == v.(attempt := v.attempt.(validation := w.attempt.validation, runs := w.attempt.runs))
    requires OneRunning(w.attempt.runs) && CommandsAdvance(v.attempt.runs, w.attempt.runs)
    ensures ViewStep(v, w)
  {
  }

  lemma GoodRuns(v: View)
    requires GoodView(v)
    ensures OneRunning(v.attempt.runs)
  {
  }

  lemma SummarySound(db: Db, clock: int, t: TaskId, v: View, state: ValidationState, name: string, text: string, exit: int)
    requires t in db.tasks && Sound(db, clock, t, v)
    ensures var tx := MarkValidationComplete(v, state); tx.Ok? ==> Sound(db, clock, t, tx.value)
    ensures var tx := RecordValidationFailureDetail(v, name, text, exit); tx.Ok? ==> Sound(db, clock, t, tx.value)
  {
    SoundIsGood(db, clock, t, v);
    hide Sound, ViewStep, GoodView;
    GoodRuns(v);
    var mark := MarkValidationComplete(v, state);
    if mark.Ok? {
      RunsStep(v, mark.value);
      StepSound(db, clock, t, v, mark.value);
    }
    var detail := RecordValidationFailureDetail(v, name, text, exit);
    if detail.Ok? {
      var i := LatestFailed(v.attempt.runs, name, exit);
      UpdateKeepsCommands(v.attempt.runs, i, detail.value.attempt.runs[i]);
      RunsStep(v, detail.value);
      StepSound(db, clock, t, v, detail.value);
    }
  }

  lemma ObservationSound(db: Db, clock: int, t: TaskId, v: View)
    requires t in db.tasks && Sound(db, clock, t, v)
    ensures Sound(db, clock, t, RecordObservation(v))
  {
    SoundIsGood(db, clock, t, v);
    ObservationStep(v);
    hide Sound, ViewStep;
    StepSound(db, clock, t, v, RecordObservation(v));
  }

  lemma ObservationStep(v: View)
    requires GoodView(v)
    ensures ViewStep(v, RecordObservation(v))
  {
  }

  // ------------------------------------------------------------------- the evidence

  lemma CandidateSound(db: Db, clock: int, t: TaskId, v: View, git: GitRow, pr: PrRow, prior: Prior)
    requires t in db.tasks && Sound(db, clock, t, v)
    requires v.task.current in Put(db, t, v).attempts && prior == PriorPullRequest(Put(db, t, v), v.task.current, pr.head, pr.base)
    ensures var tx := RecordPullRequestCandidate(v.attempt, prior, git, pr); tx.Ok? ==> Sound(db, clock, t, v.(attempt := tx.value))
  {
    SoundIsGood(db, clock, t, v);
    var mid := Put(db, t, v);
    CurrentOwned(mid, t);
    assert IsCurrent(mid, v.task.current);
    GateIsPushed(v.attempt);
    CandidateStep(mid, v.task.current, git, pr);
    hide Sound, RecordPullRequestCandidate, AttemptStep, GoodView, PriorPullRequest, TaskOk;
    var tx := RecordPullRequestCandidate(v.attempt, prior, git, pr);
    if tx.Ok? {
      EvidenceSound(db, clock, t, v, tx.value);
    }
  }

  lemma GateIsPushed(a: AttemptRow)
    requires RowOk(a)
    ensures !(PullRequestOpen(a.state) && !PushedGit(a))
  {
  }

  lemma VerifiedSound(db: Db, clock: int, t: TaskId, v: View, git: GitRow, pr: PrRow, valid: bool)
    requires t in db.tasks && Sound(db, clock, t, v)
    ensures var tx := RecordVerifiedPullRequest(v.attempt, git, pr, valid); tx.Ok? ==> Sound(db, clock, t, v.(attempt := tx.value))
  {
    SoundIsGood(db, clock, t, v);
    var mid := Put(db, t, v);
    CurrentOwned(mid, t);
    assert IsCurrent(mid, v.task.current);
    GateIsPushed(v.attempt);
    VerifiedStep(mid, v.task.current, git, pr, valid);
    hide Sound, RecordVerifiedPullRequest, AttemptStep, GoodView, TaskOk;
    var tx := RecordVerifiedPullRequest(v.attempt, git, pr, valid);
    if tx.Ok? {
      EvidenceSound(db, clock, t, v, tx.value);
    }
  }

  // --------------------------------------------------------------- multi-step parts

  lemma {:induction false} RecoverSound(db: Db, clock: int, t: TaskId, v: View, target: State, budget: int)
    requires t in db.tasks && Sound(db, clock, t, v)
    ensures Sound(db, clock, t, RecoverTo(v, target, budget).v)
    decreases 13 - Index(v.task.state)
  {
    hide Sound, CommitTransition;
    if 0 <= Index(v.task.state) < Index(target) {
      var next := LIFECYCLE[Index(v.task.state) + 1];
      TransitionSound(db, clock, t, v, budget, next);
      var d := CommitTransition(v, budget, next);
      if d.Delivered? {
        Climbs(v, budget, next);
        LifecycleIndex(Index(v.task.state) + 1);
        RecoverSound(db, clock, t, d.v, target, budget - 1);
      }
    }
  }

  lemma Climbs(v: View, budget: int, to: State)
    requires CommitTransition(v, budget, to).Delivered?
    ensures CommitTransition(v, budget, to).v.task.state == to
  {
    hide CanTransition, ApplyValidation;
  }

  lemma {:induction false} ResumeLoopSound(db: Db, clock: int, t: TaskId, v: View, budget: int)
    requires t in db.tasks && Sound(db, clock, t, v)
    ensures Sound(db, clock, t, ResumeLoop(v, budget).v)
    decreases 13 - Index(v.task.state)
  {
    hide Sound, CommitTransition;
    var next := match v.task.state case Validating => Committing case Committing => Pushing case Pushing => CreatingPr case _ => PrOpen;
    if v.task.state == Validating || v.task.state == Committing || v.task.state == Pushing || v.task.state == CreatingPr {
      TransitionSound(db, clock, t, v, budget, next);
      var d := CommitTransition(v, budget, next);
      if d.Delivered? {
        Climbs(v, budget, next);
        ResumeLoopSound(db, clock, t, d.v, budget - 1);
      }
    }
  }

  // ------------------------------------------------------------------------ handlers

  /** The candidate a published event records, on the branches of the manifest. */
  lemma PublishedCandidateSound(db: Db, clock: int, t: TaskId, env: Environment, number: nat, sha: string)
    requires Inv(db, clock) && t in db.tasks && TaskOk(db, t) && PriorRead(db, t, env) && ViewOf(db, t).attempt.manifest.Some?
    ensures var v := ViewOf(db, t);
            var m := v.attempt.manifest.value;
            var tx := RecordPullRequestCandidate(v.attempt, env.prior, GitRow(Candidate, m.taskBranch, sha), PrRow(Reported, number, "", "", m.taskBranch, m.baseBranch));
            tx.Ok? ==> Sound(db, clock, t, v.(attempt := tx.value))
  {
    hide Inv, Sound, RecordPullRequestCandidate, PriorPullRequest, TaskOk;
    CurrentOwned(db, t);
    StartSound(db, clock, t);
    var v := ViewOf(db, t);
    var m := v.attempt.manifest.value;
    assert Put(db, t, v) == db;
    CandidateSound(db, clock, t, v, GitRow(Candidate, m.taskBranch, sha), PrRow(Reported, number, "", "", m.taskBranch, m.baseBranch), env.prior);
  }

  lemma PublishedSound(db: Db, clock: int, t: TaskId, env: Environment, number: nat, branch: string, sha: string, budget: int)
    requires Inv(db, clock) && t in db.tasks && TaskOk(db, t) && PriorRead(db, t, env)
    ensures Sound(db, clock, t, HandlePublished(ViewOf(db, t), env, number, branch, sha, budget).v)
  {
    hide Inv, Sound, FailReceipt, RecordPullRequestCandidate, PriorRead, TaskOk, FullGitObjectId;
    CurrentOwned(db, t);
    var v := ViewOf(db, t);
    StartSound(db, clock, t);
    FailReceiptSound(db, clock, t, v, budget);
    if v.attempt.manifest.Some? {
      PublishedCandidateSound(db, clock, t, env, number, sha);
    }
  }

  lemma ReadySound(db: Db, clock: int, t: TaskId, v: View, env: Environment, number: nat, branch: string, sha: string, budget: int)
    requires t in db.tasks && Sound(db, clock, t, v)
    ensures Sound(db, clock, t, HandleReady(v, env, number, branch, sha, budget).v)
  {
    hide Sound, FailReceipt, RecordVerifiedPullRequest, Inspect, ResumeLoop, CandidateMatchesReceipt, DurableMatchesReceipt;
    FailReceiptSound(db, clock, t, v, budget);
    ResumeLoopSound(db, clock, t, v, budget);
    if v.attempt.manifest.Some? {
      var verdict := Inspect(env.polls, 0, env, v.attempt.manifest.value, number, sha);
      if verdict.Verified? {
        var live := verdict.live;
        var git, pr := GitRow(Pushed, branch, sha), PrRow(Open, live.number, live.url, live.title, live.head, live.base);
        VerifiedSound(db, clock, t, v, git, pr, env.validMetadata(live.url, live.title));
        var tx := RecordVerifiedPullRequest(v.attempt, git, pr, env.validMetadata(live.url, live.title));
        if tx.Ok? {
          ResumeLoopSound(db, clock, t, v.(attempt := tx.value), budget - 1);
        }
      }
    }
  }

  lemma FailedValidationSound(db: Db, clock: int, t: TaskId, v: View, name: string, text: string, exit: int, event: Option<WorkerEventId>, budget: int)
    requires t in db.tasks && Sound(db, clock, t, v)
    ensures Sound(db, clock, t, HandleValidationFailed(v, name, text, exit, event, budget).v)
  {
    hide Sound, RecordValidationResult, RecordValidationFailureDetail, FinishValidationFailed;
    FinishCommandSound(db, clock, t, v, name, text, exit, event);
    SummarySound(db, clock, t, v, ValidationFailed, name, text, exit);
    var first := RecordValidationResult(v, name, text, exit, event);
    if first.Ok? {
      FinishSound(db, clock, t, first.value, budget - 1);
    }
    var detail := RecordValidationFailureDetail(v, name, text, exit);
    if detail.Ok? {
      FinishSound(db, clock, t, detail.value, budget - 1);
    }
  }

  lemma FinishSound(db: Db, clock: int, t: TaskId, v: View, budget: int)
    requires t in db.tasks && Sound(db, clock, t, v)
    ensures Sound(db, clock, t, FinishValidationFailed(v, budget).v)
  {
    hide Sound, CommitTransition, MarkValidationComplete, RecordValidationFailureDetail;
    SummarySound(db, clock, t, v, ValidationFailed, "", "", 0);
    var tx := MarkValidationComplete(v, ValidationFailed);
    if tx.Ok? {
      TransitionSound(db, clock, t, tx.value, budget - 1, Failed);
    }
  }

  lemma AgentStartedSound(db: Db, clock: int, t: TaskId, v: View, event: Option<WorkerEventId>, budget: int)
    requires t in db.tasks && Sound(db, clock, t, v)
    ensures Sound(db, clock, t, HandleAgentStarted(v, event, budget).v)
  {
    hide Sound, CommitTransition, RecoverTo;
    RecoverSound(db, clock, t, v, Running, budget);
    TransitionSound(db, clock, t, v, budget, AgentRunning);
    var d := RecoverTo(v, Running, budget);
    TransitionSound(db, clock, t, d.v, budget - (Index(Running) - Index(v.task.state)), AgentRunning);
  }

  lemma StartedValidationSound(db: Db, clock: int, t: TaskId, v: View, name: string, text: string, event: Option<WorkerEventId>, budget: int)
    requires t in db.tasks && Sound(db, clock, t, v)
    ensures Sound(db, clock, t, HandleStartedValidation(v, name, text, event, budget).v)
  {
    hide Sound, Transition, RecordValidationStarted;
    StartCommandSound(db, clock, t, v, name, text, event);
  }

  // ------------------------------------------------------------------- main result

  /** However many of its transactions commit before a crash, and whatever the provider
      answers, handling a worker event leaves the store in a state that satisfies the
      invariant and keeps everything established before. */
  lemma HandlingKeepsTheStore(db: Db, clock: int, t: TaskId, event: Event, id: Option<WorkerEventId>, env: Environment, budget: int)
    requires Inv(db, clock) && t in db.tasks && TaskOk(db, t) && PriorRead(db, t, env)
    ensures var db' := Put(db, t, Handle(ViewOf(db, t), event, id, env, budget).v);
            Inv(db', clock) && Advances(db, clock, db')
  {
    var v := ViewOf(db, t);
    StartSound(db, clock, t);
    assert Sound(db, clock, t, Handle(v, event, id, env, budget).v) by {
      HandleSound(db, clock, t, event, id, env, budget);
    }
  }

  lemma HandleSound(db: Db, clock: int, t: TaskId, event: Event, id: Option<WorkerEventId>, env: Environment, budget: int)
    requires Inv(db, clock) && t in db.tasks && TaskOk(db, t) && PriorRead(db, t, env)
    ensures Sound(db, clock, t, Handle(ViewOf(db, t), event, id, env, budget).v)
  {
    hide Sound, Inv, TaskOk, PriorRead, CommitTransition, HandlePublished, HandleReady, HandleValidationFailed, HandleStartedValidation,
         HandleAgentStarted, RecordValidationResult, MarkValidationComplete, RecordValidationFailureDetail;
    CurrentOwned(db, t);
    var v := ViewOf(db, t);
    StartSound(db, clock, t);
    TransitionSound(db, clock, t, v, budget, Failed);
    match event {
      case PullRequestPublished(number, branch, sha) => PublishedSound(db, clock, t, env, number, branch, sha, budget);
      case PullRequestReady(number, branch, sha) => ReadySound(db, clock, t, v, env, number, branch, sha, budget);
      case AgentStarted => AgentStartedSound(db, clock, t, v, id, budget);
      case StartedValidation(name, message) => StartedValidationSound(db, clock, t, v, name, message, id, budget);
      case FinishedValidation(name, message, exit) => FinishCommandSound(db, clock, t, v, name, message, exit, id);
      case SucceededValidation => SummarySound(db, clock, t, v, ValidationSucceeded, "", "", 0);
      case FailedValidation(name, message, exit) => FailedValidationSound(db, clock, t, v, name, message, exit, id, budget);
      case BranchPushed(_, _) =>
      case WorkerFailed(_) =>
      case Unsupported =>
    }
    ObservationSound(db, clock, t, v);
  }
}
