/** Crash-redelivery equivalence: worker events are delivered at least once, and
    an interrupted delivery followed by a complete one leaves exactly the state
    of one uninterrupted delivery. */
module Redelivery {
  import opened Wrappers
  import opened TaskState
  import opened Rows
  import opened Transactions
  import opened WorkerEvents

  /** The audit log without its observations. */
  function Changes(log: seq<AuditEvent>): (r: seq<AuditEvent>)
    ensures forall e | e in r :: e.from != e.to
  {
    if log == [] then []
    else
      var last := log[|log| - 1];
      Changes(log[..|log| - 1]) + (if last.from == last.to then [] else [last])
  }

  /** The durable state apart from audit observations. */
  function Core(v: View): View {
    v.(task := v.task.(log := Changes(v.task.log)))
  }

  lemma ObservationIsInvisible(v: View)
    ensures Core(RecordObservation(v)) == Core(v)
  {
    var log := RecordObservation(v).task.log;
    assert log[..|log| - 1] == v.task.log;
  }

  /** The rows after one lifecycle step that carries no validation change. */
  function Moved(v: View, to: State): View {
    View(v.task.(state := to, log := v.task.log + [AuditEvent(v.task.current, v.task.state, to)]), v.attempt.(state := to))
  }

  /** All that can come of one lifecycle step. */
  lemma StepOutcome(v: View, k: int, to: State)
    requires !v.task.cancel && !Terminal(v.task.state)
    requires to == Failed || (Index(to) == Index(v.task.state) + 1 && to != Ready)
    ensures CommitTransition(v, k, to) ==
              if k == 0 then Crashed(v)
              else if to == PrOpen && !PullRequestGate(v.attempt) then Rejected(v, Conflict)
              else Delivered(Moved(v, to))
  {
    CanTransitionIsAdjacency(v.task.state, to);
  }

  // ----------------------------------------------------------------- resume loop

  /** `w` differs from `v` only in how far the lifecycle has come. */
  predicate SameEvidence(v: View, w: View) {
    && w.attempt == v.attempt.(state := w.attempt.state)
    && w.task.cancel == v.task.cancel && w.task.current == v.task.current
  }

  lemma {:induction false} ResumeLoopFrame(v: View, k: int)
    requires !v.task.cancel && AtOrAfter(v.task.state, Validating)
    ensures var w := ResumeLoop(v, k).v; SameEvidence(v, w) && AtOrAfter(w.task.state, v.task.state) && (w == v || !Terminal(w.task.state))
    decreases 13 - Index(v.task.state)
  {
    hide CommitTransition;
    if !PullRequestOpen(v.task.state) {
      var next := NextState(v.task.state);
      StepOutcome(v, k, next);
      if CommitTransition(v, k, next).Delivered? {
        ResumeLoopFrame(Moved(v, next), k - 1);
      }
    }
  }

  /** The state the resume loop moves to next. */
  function NextState(s: State): (t: State)
    requires AtOrAfter(s, Validating) && !PullRequestOpen(s)
    ensures Index(t) == Index(s) + 1
  {
    if s == Validating then Committing else if s == Committing then Pushing else if s == Pushing then CreatingPr else PrOpen
  }

  /** Cutting the resume loop anywhere and running it again loses nothing. */
  lemma {:induction false} ResumeLoopAgain(v: View, k: int, b: int, c: int)
    requires !v.task.cancel && AtOrAfter(v.task.state, Validating) && b < 0 && c < 0
    ensures ResumeLoop(ResumeLoop(v, k).v, b).v == ResumeLoop(v, c).v
    decreases 13 - Index(v.task.state)
  {
    hide CommitTransition;
    ResumeLoopUnlimited(v, b, c);
    if !PullRequestOpen(v.task.state) {
      var next := NextState(v.task.state);
      StepOutcome(v, k, next);
      StepOutcome(v, b, next);
      StepOutcome(v, c, next);
      if (v.task.state == Validating && v.attempt.validation != ValidationSucceeded) || !CommitTransition(v, k, next).Delivered? {
        assert ResumeLoop(v, k).v == v;
      } else {
        ResumeLoopAgain(Moved(v, next), k - 1, b, c - 1);
        assert ResumeLoop(v, k) == ResumeLoop(Moved(v, next), k - 1);
        assert ResumeLoop(v, c) == ResumeLoop(Moved(v, next), c - 1);
      }
    }
  }

  lemma {:induction false} ResumeLoopUnlimited(v: View, b: int, c: int)
    requires !v.task.cancel && AtOrAfter(v.task.state, Validating) && b < 0 && c < 0
    ensures ResumeLoop(v, b) == ResumeLoop(v, c) && !ResumeLoop(v, b).Crashed?
    decreases 13 - Index(v.task.state)
  {
    hide CommitTransition;
    if !PullRequestOpen(v.task.state) {
      var next := NextState(v.task.state);
      StepOutcome(v, b, next);
      StepOutcome(v, c, next);
      if CommitTransition(v, b, next).Delivered? {
        ResumeLoopUnlimited(Moved(v, next), b - 1, c - 1);
      }
    }
  }

  lemma ResumeAgain(v: View, k: int)
    requires !v.task.cancel && AtOrAfter(v.task.state, Validating)
    ensures var w := Resume(v, k).v;
            && SameEvidence(v, w) && AtOrAfter(w.task.state, v.task.state) && (w == v || !Terminal(w.task.state))
            && Resume(w, UNLIMITED).v == Resume(v, UNLIMITED).v
            && (forall c | c < 0 :: Resume(v, c) == Resume(v, UNLIMITED))
  {
    if ResumeEvidence(v.attempt) {
      ResumeLoopFrame(v, k);
      ResumeLoopAgain(v, k, UNLIMITED, UNLIMITED);
      forall c | c < 0 { ResumeLoopUnlimited(v, c, UNLIMITED); }
    }
  }


  // -------------------------------------------------------------------- handlers

  /** A budget-cut delivery of the same event leaves something that a complete
      delivery turns into the result of one complete delivery. */
  predicate Again(v: View, event: Event, id: Option<WorkerEventId>, env: Environment, k: int) {
    Handle(Handle(v, event, id, env, k).v, event, id, env, UNLIMITED).v == Handle(v, event, id, env, UNLIMITED).v
  }

  lemma FailReceiptOutcome(v: View, k: int)
    requires !v.task.cancel && !Terminal(v.task.state)
    ensures FailReceipt(v, k) == if k == 0 then Crashed(v) else Rejected(Moved(v, Failed), Conflict)
  {
    StepOutcome(v, k, Failed);
  }

  lemma ReadyAgain(v: View, event: Event, id: Option<WorkerEventId>, env: Environment, k: int)
    requires event.PullRequestReady? && !Terminal(v.task.state) && !v.task.cancel
    ensures Again(v, event, id, env, k)
  {
    hide CommitTransition, FailReceipt, Resume, RecordVerifiedPullRequest, Inspect, Judge;
    FailReceiptOutcome(v, k);
    FailReceiptOutcome(v, UNLIMITED);
    if v.attempt.manifest.None? || !AtOrAfter(v.task.state, Validating) || !CandidateMatchesReceipt(v.attempt, event.number, event.branch, event.sha) {
      return;
    }
    if PushedGit(v.attempt) {
      ResumeAgain(v, k);
    } else if k != 0 && Inspect(env.polls, 0, env, v.attempt.manifest.value, event.number, event.sha).Verified? {
      VerifiedAgain(v, event, id, env, k);
    }
  }

  lemma VerifiedAgain(v: View, event: Event, id: Option<WorkerEventId>, env: Environment, k: int)
    requires event.PullRequestReady? && !Terminal(v.task.state) && !v.task.cancel && k != 0
    requires v.attempt.manifest.Some? && AtOrAfter(v.task.state, Validating) && !PushedGit(v.attempt)
    requires CandidateMatchesReceipt(v.attempt, event.number, event.branch, event.sha)
    requires Inspect(env.polls, 0, env, v.attempt.manifest.value, event.number, event.sha).Verified?
    ensures Again(v, event, id, env, k)
  {
    hide CommitTransition, FailReceipt, Resume, Inspect;
    FailReceiptOutcome(v, k);
    FailReceiptOutcome(v, UNLIMITED);
    var live := Inspect(env.polls, 0, env, v.attempt.manifest.value, event.number, event.sha).live;
    var tx := RecordVerifiedPullRequest(v.attempt, GitRow(Pushed, event.branch, event.sha),
                                        PrRow(Open, live.number, live.url, live.title, live.head, live.base),
                                        env.validMetadata(live.url, live.title));
    if tx.Ok? {
      var w := v.(attempt := tx.value);
      ResumeAgain(w, k - 1);
      ResumeAgain(w, UNLIMITED - 1);
      assert DurableMatchesReceipt(w.attempt, env, event.number, event.branch, event.sha);
    }
  }

  /** One step of `recoverTo`. */
  lemma RecoverStep(v: View, target: State, k: int)
    requires !v.task.cancel && 0 <= Index(v.task.state) < Index(target) < 10
    ensures var next := LIFECYCLE[Index(v.task.state) + 1];
            && Index(next) == Index(v.task.state) + 1
            && RecoverTo(v, target, k) == if k == 0 then Crashed(v) else RecoverTo(Moved(v, next), target, k - 1)
  {
    hide CommitTransition;
    LifecycleIndex(Index(v.task.state) + 1);
    StepOutcome(v, k, LIFECYCLE[Index(v.task.state) + 1]);
  }

  lemma {:induction false} RecoverUnlimited(v: View, target: State, b: int, c: int)
    requires !v.task.cancel && 0 <= Index(v.task.state) <= Index(target) < 10 && b < 0 && c < 0
    ensures var d := RecoverTo(v, target, c);
            d.Delivered? && d == RecoverTo(v, target, b) && Index(d.v.task.state) == Index(target) && !d.v.task.cancel
    decreases Index(target) - Index(v.task.state)
  {
    hide CommitTransition;
    if Index(v.task.state) < Index(target) {
      RecoverStep(v, target, b);
      RecoverStep(v, target, c);
      RecoverUnlimited(Moved(v, LIFECYCLE[Index(v.task.state) + 1]), target, b - 1, c - 1);
    }
  }

  /** `recoverTo` can be cut after any transition and restarted. */
  lemma {:induction false} RecoverAgain(v: View, target: State, k: int, c: int)
    requires !v.task.cancel && 0 <= Index(v.task.state) <= Index(target) < 10 && c < 0
    ensures var d := RecoverTo(v, target, k);
            && !d.Rejected? && !d.v.task.cancel && Index(v.task.state) <= Index(d.v.task.state) <= Index(target)
            && (d.Delivered? ==> Index(d.v.task.state) == Index(target))
            && RecoverTo(d.v, target, UNLIMITED) == RecoverTo(v, target, c)
    decreases Index(target) - Index(v.task.state)
  {
    hide CommitTransition;
    if Index(v.task.state) < Index(target) {
      RecoverUnlimited(v, target, UNLIMITED, c);
      RecoverStep(v, target, k);
      RecoverStep(v, target, c);
      if k != 0 {
        RecoverAgain(Moved(v, LIFECYCLE[Index(v.task.state) + 1]), target, k - 1, c - 1);
      }
    }
  }

  predicate Startable(s: State) {
    s == CreatingJob || s == JobPending || s == Running
  }

  lemma AgentStartedIs(v: View, id: Option<WorkerEventId>, env: Environment, k: int)
    requires Startable(v.task.state) && !v.task.cancel
    ensures Handle(v, AgentStarted, id, env, k) == HandleAgentStarted(v, id, k)
  {
    hide HandleAgentStarted;
  }

  /** A complete agent_started delivery, from any of the states it can start in. */
  lemma CompleteStart(v: View, id: Option<WorkerEventId>, env: Environment)
    requires id.Some? && Startable(v.task.state) && !v.task.cancel
    ensures Handle(v, AgentStarted, id, env, UNLIMITED).v == Moved(RecoverTo(v, Running, UNLIMITED).v, AgentRunning)
    ensures RecoverTo(v, Running, UNLIMITED).v.task.state == Running
  {
    hide CommitTransition, RecoverTo, Handle;
    AgentStartedIs(v, id, env, UNLIMITED);
    RecoverUnlimited(v, Running, UNLIMITED, UNLIMITED);
    var w := RecoverTo(v, Running, UNLIMITED).v;
    StepOutcome(w, UNLIMITED - (Index(Running) - Index(v.task.state)), AgentRunning);
    if v.task.state == Running {
      RecoverAtTarget(v, UNLIMITED);
    }
  }

  lemma RecoverAtTarget(v: View, k: int)
    requires v.task.state == Running
    ensures RecoverTo(v, Running, k) == Delivered(v)
  {
  }

  /** Where an interrupted agent_started delivery can have stopped. */
  lemma InterruptedStart(v: View, id: Option<WorkerEventId>, env: Environment, k: int)
    requires id.Some? && Startable(v.task.state) && !v.task.cancel
    ensures var d, w := RecoverTo(v, Running, k), Handle(v, AgentStarted, id, env, k).v;
            w == d.v || (d.Delivered? && w == Moved(d.v, AgentRunning))
  {
    hide CommitTransition, RecoverTo, Handle;
    AgentStartedIs(v, id, env, k);
    RecoverAgain(v, Running, k, UNLIMITED);
    var d := RecoverTo(v, Running, k);
    if v.task.state == Running {
      RecoverAtTarget(v, k);
    }
    if d.Delivered? {
      StepOutcome(d.v, k - (Index(Running) - Index(v.task.state)), AgentRunning);
    }
  }

  lemma AgentStartedAgain(v: View, id: Option<WorkerEventId>, env: Environment, k: int)
    requires id.Some? && !Terminal(v.task.state) && !v.task.cancel
    ensures Again(v, AgentStarted, id, env, k)
  {
    hide CommitTransition, RecoverTo;
    if Startable(v.task.state) {
      StartAgain(v, id, env, k);
    }
  }

  lemma StartAgain(v: View, id: Option<WorkerEventId>, env: Environment, k: int)
    requires id.Some? && Startable(v.task.state) && !v.task.cancel
    ensures Again(v, AgentStarted, id, env, k)
  {
    hide CommitTransition, RecoverTo, HandleAgentStarted, Handle, Moved;
    CompleteStart(v, id, env);
    RecoverAgain(v, Running, k, UNLIMITED);
    InterruptedStart(v, id, env, k);
    var d := RecoverTo(v, Running, k);
    var w := Handle(v, AgentStarted, id, env, k).v;
    CompleteStart(d.v, id, env);
    if w != d.v {
      StartedIsIgnored(d.v, id, env);
      assert RecoverTo(d.v, Running, UNLIMITED) == RecoverTo(v, Running, UNLIMITED);
      RecoverAtTarget(d.v, UNLIMITED);
    }
  }

  lemma StartedIsIgnored(v: View, id: Option<WorkerEventId>, env: Environment)
    requires !v.task.cancel
    ensures Handle(Moved(v, AgentRunning), AgentStarted, id, env, UNLIMITED).v == Moved(v, AgentRunning)
  {
  }

  lemma RunsAreDeduplicated(v: View, name: string, message: string, exit: int, id: Option<WorkerEventId>)
    requires id.Some?
    ensures var tx := RecordValidationResult(v, name, message, exit, id);
            tx.Ok? ==> RecordValidationResult(tx.value, name, message, exit, id) == tx && tx.value.task == v.task
    ensures var tx := RecordValidationStarted(v, name, message, id);
            tx.Ok? ==> RecordValidationStarted(tx.value, name, message, id) == tx && tx.value.task == v.task
    ensures var tx := Transition(v, AgentRunning, Validating, StartRun(name, message, id));
            tx.Ok? ==> RecordValidationStarted(tx.value, name, message, id) == tx && tx.value.task.state == Validating && tx.value.task.cancel == v.task.cancel
  {
    var tx := RecordValidationResult(v, name, message, exit, id);
    if tx.Ok? && !FinishedBy(v.attempt.runs, id) {
      assert tx.value.attempt.runs[FirstRunning(v.attempt.runs)].resultEvent == id;
    }
    var st := ApplyValidation(v.attempt, StartRun(name, message, id));
    if st.Ok? {
      assert st.value.runs[|v.attempt.runs|].startEvent == id;
    }
    var tr := ApplyValidation(v.attempt.(state := Validating), StartRun(name, message, id));
    if tr.Ok? {
      assert tr.value.runs[|v.attempt.runs|].startEvent == id;
    }
  }

  lemma ValidationAgain(v: View, event: Event, id: Option<WorkerEventId>, env: Environment, k: int)
    requires event.StartedValidation? || event.FinishedValidation?
    requires id.Some? && !Terminal(v.task.state) && !v.task.cancel
    ensures Again(v, event, id, env, k)
  {
    hide CommitTransition, RecordValidationResult, RecordValidationStarted, Transition;
    RunsAreDeduplicated(v, event.name, event.message, if event.FinishedValidation? then event.exit else 0, id);
  }

  lemma CandidateIsIdempotent(a: AttemptRow, prior: Prior, git: GitRow, pr: PrRow)
    ensures var tx := RecordPullRequestCandidate(a, prior, git, pr);
            tx.Ok? ==> RecordPullRequestCandidate(tx.value, prior, git, pr) == tx && tx.value.manifest == a.manifest
  {
  }

  lemma PublishedAgain(v: View, event: Event, id: Option<WorkerEventId>, env: Environment, k: int)
    requires event.PullRequestPublished? && !Terminal(v.task.state) && !v.task.cancel
    ensures Again(v, event, id, env, k)
  {
    hide CommitTransition, FailReceipt, RecordPullRequestCandidate;
    FailReceiptOutcome(v, k);
    FailReceiptOutcome(v, UNLIMITED);
    if v.attempt.manifest.Some? {
      var git := GitRow(Candidate, event.branch, event.sha);
      var pr := PrRow(Reported, event.number, "", "", event.branch, v.attempt.manifest.value.baseBranch);
      CandidateIsIdempotent(v.attempt, env.prior, git, pr);
      var tx := RecordPullRequestCandidate(v.attempt, env.prior, git, pr);
      if k != 0 && tx.Ok? && tx.value != v.attempt {
        var w := v.(attempt := tx.value);
        if HandlePublished(v, env, event.number, event.branch, event.sha, k) == Delivered(w) {
          assert HandlePublished(w, env, event.number, event.branch, event.sha, UNLIMITED) == Delivered(w);
        }
      }
    }
  }

  lemma ClosingAgain(v: View, event: Event, id: Option<WorkerEventId>, env: Environment, k: int)
    requires event.BranchPushed? || event.WorkerFailed? || event.SucceededValidation? || event.Unsupported?
    requires !Terminal(v.task.state) && !v.task.cancel
    ensures Again(v, event, id, env, k)
  {
    hide CommitTransition;
    StepOutcome(v, k, Failed);
    StepOutcome(v, UNLIMITED, Failed);
  }

  // --------------------------------------------------------- validation_failed

  /** Rewriting the text of one finished run does not change which run is
      running, which one failed last, or whose results are known. */
  lemma {:induction false} DetailKeepsRuns(runs: seq<ValidationRun>, i: nat, r: ValidationRun)
    requires i < |runs| && r == runs[i].(summary := r.summary, error := r.error)
    ensures FirstRunning(runs[i := r]) == FirstRunning(runs)
    ensures forall name, exit :: LatestFailed(runs[i := r], name, exit) == LatestFailed(runs, name, exit)
    ensures forall id :: FinishedBy(runs[i := r], id) == FinishedBy(runs, id)
    ensures HasRunning(runs[i := r]) == HasRunning(runs)
  {
    var updated := runs[i := r];
    forall id ensures FinishedBy(updated, id) == FinishedBy(runs, id) {
      assert forall j | 0 <= j < |runs| :: updated[j].resultEvent == runs[j].resultEvent;
    }
    assert forall j | 0 <= j < |runs| :: updated[j].state == runs[j].state;
  }

  /** Delivering the first transaction of validation_failed again, to rows that
      already have it, changes nothing and takes the same branch. */
  lemma ResultOrDetailAgain(v: View, w: View, name: string, message: string, exit: int, id: Option<WorkerEventId>)
    requires id.Some? && v.task.state == Validating && w.task == v.task
    requires var first := RecordValidationResult(v, name, message, exit, id);
             if first.Ok? then w.attempt.runs == first.value.attempt.runs
             else var detail := RecordValidationFailureDetail(v, name, message, exit);
                  detail.Ok? && w.attempt.runs == detail.value.attempt.runs
    ensures var first := RecordValidationResult(v, name, message, exit, id);
            if first.Ok? then RecordValidationResult(w, name, message, exit, id) == Ok(w)
            else first == Err(Conflict) && RecordValidationResult(w, name, message, exit, id) == Err(Conflict)
                 && RecordValidationFailureDetail(w, name, message, exit) == Ok(w)
  {
    var first := RecordValidationResult(v, name, message, exit, id);
    if first.Ok? {
      RunsAreDeduplicated(v, name, message, exit, id);
      if !FinishedBy(v.attempt.runs, id) {
        assert w.attempt.runs[FirstRunning(v.attempt.runs)].resultEvent == id;
      }
    } else {
      var i := LatestFailed(v.attempt.runs, name, exit);
      var r := v.attempt.runs[i].(summary := message, error := message);
      DetailKeepsRuns(v.attempt.runs, i, r);
      assert w.attempt.runs[i := r] == w.attempt.runs;
    }
  }

  lemma FinishOutcome(w: View, k: int)
    requires w.task.state == Validating && !w.task.cancel
    ensures var tx := MarkValidationComplete(w, ValidationFailed);
            FinishValidationFailed(w, k) ==
              if k == 0 then Crashed(w)
              else if tx.Err? then Rejected(w, tx.error)
              else if k == 1 then Crashed(tx.value)
              else Delivered(Moved(tx.value, Failed))
  {
    hide CommitTransition;
    var tx := MarkValidationComplete(w, ValidationFailed);
    if tx.Ok? {
      StepOutcome(tx.value, k - 1, Failed);
    }
  }

  lemma FailedValidationAgain(v: View, event: Event, id: Option<WorkerEventId>, env: Environment, k: int)
    requires event.FailedValidation? && id.Some? && !Terminal(v.task.state) && !v.task.cancel
    ensures Again(v, event, id, env, k)
  {
    hide CommitTransition, FinishValidationFailed, RecordValidationResult, RecordValidationFailureDetail;
    if v.task.state == Validating && k != 0 {
      var first := RecordValidationResult(v, event.name, event.message, event.exit, id);
      var detail := RecordValidationFailureDetail(v, event.name, event.message, event.exit);
      if first.Ok? || detail.Ok? {
        var w := if first.Ok? then first.value else detail.value;
        FirstTransactionFrame(v, event.name, event.message, event.exit, id);
        ResultOrDetailAgain(v, w, event.name, event.message, event.exit, id);
        FinishOutcome(w, k - 1);
        FinishOutcome(w, UNLIMITED - 1);
        var marked := MarkValidationComplete(w, ValidationFailed);
        if marked.Ok? {
          ResultOrDetailAgain(v, marked.value, event.name, event.message, event.exit, id);
          FinishOutcome(marked.value, UNLIMITED - 1);
        }
      }
    }
  }

  lemma FirstTransactionFrame(v: View, name: string, message: string, exit: int, id: Option<WorkerEventId>)
    requires v.task.state == Validating
    ensures var tx := RecordValidationResult(v, name, message, exit, id);
            if tx.Ok? then tx.value == v.(attempt := v.attempt.(runs := tx.value.attempt.runs)) else tx == Err(Conflict)
    ensures var tx := RecordValidationFailureDetail(v, name, message, exit);
            if tx.Ok? then tx.value == v.(attempt := v.attempt.(runs := tx.value.attempt.runs)) else tx == Err(Conflict)
  {
  }

  // ----------------------------------------------------------------- main result

  /** Unless cancellation owns the outcome, the equality is exact, audit log included. */
  lemma RedeliveryIsExact(v: View, event: Event, id: Option<WorkerEventId>, env: Environment, k: int)
    requires id.Some? && (Terminal(v.task.state) || !v.task.cancel)
    ensures Again(v, event, id, env, k)
  {
    hide Handle;
    if Terminal(v.task.state) {
      TerminalIgnores(v, event, id, env, k);
      TerminalIgnores(v, event, id, env, UNLIMITED);
    } else if event.PullRequestReady? {
      ReadyAgain(v, event, id, env, k);
    } else if event.AgentStarted? {
      AgentStartedAgain(v, id, env, k);
    } else if event.FailedValidation? {
      FailedValidationAgain(v, event, id, env, k);
    } else if event.StartedValidation? || event.FinishedValidation? {
      ValidationAgain(v, event, id, env, k);
    } else if event.PullRequestPublished? {
      PublishedAgain(v, event, id, env, k);
    } else {
      ClosingAgain(v, event, id, env, k);
    }
  }

  /** However a delivery was cut, delivering the same durable event again, with the
      same provider answers, leaves the task, its audit changes, the attempt, its
      validation runs, Git row and pull request as one uninterrupted delivery does. */
  lemma RedeliveryIsEquivalent(v: View, event: Event, id: Option<WorkerEventId>, env: Environment, k: int)
    requires id.Some?
    ensures Core(Handle(Handle(v, event, id, env, k).v, event, id, env, UNLIMITED).v)
         == Core(Handle(v, event, id, env, UNLIMITED).v)
    ensures !Handle(v, event, id, env, UNLIMITED).Crashed?
  {
    hide Handle;
    NeverCrashesUnlimited(v, event, id, env);
    if Terminal(v.task.state) || !v.task.cancel {
      RedeliveryIsExact(v, event, id, env, k);
    } else {
      CancelledAgain(v, event, id, env, k);
      CancelledAgain(v, event, id, env, UNLIMITED);
    }
  }

  lemma TerminalIgnores(v: View, event: Event, id: Option<WorkerEventId>, env: Environment, k: int)
    requires Terminal(v.task.state)
    ensures Handle(v, event, id, env, k) == Delivered(v)
  {
  }

  lemma CancelledAgain(v: View, event: Event, id: Option<WorkerEventId>, env: Environment, k: int)
    requires !Terminal(v.task.state) && v.task.cancel
    ensures Core(Handle(v, event, id, env, k).v) == Core(v)
    ensures Core(Handle(Handle(v, event, id, env, k).v, event, id, env, UNLIMITED).v) == Core(v)
  {
    ObservationIsInvisible(v);
    ObservationIsInvisible(RecordObservation(v));
  }

  lemma NeverCrashesUnlimited(v: View, event: Event, id: Option<WorkerEventId>, env: Environment)
    ensures !Handle(v, event, id, env, UNLIMITED).Crashed?
  {
    if Terminal(v.task.state) || v.task.cancel {
    } else if event.AgentStarted? {
      StartNeverCrashes(v, id, env);
    } else if event.FailedValidation? {
      FailedNeverCrashes(v, event.name, event.message, event.exit, id);
    } else {
      OthersNeverCrash(v, event, id, env);
    }
  }

  lemma OthersNeverCrash(v: View, event: Event, id: Option<WorkerEventId>, env: Environment)
    requires !Terminal(v.task.state) && !v.task.cancel && !event.AgentStarted? && !event.FailedValidation?
    ensures !Handle(v, event, id, env, UNLIMITED).Crashed?
  {
    hide CommitTransition, FailReceipt, Resume, RecordPullRequestCandidate, RecordVerifiedPullRequest, Inspect,
         RecordValidationResult, RecordValidationStarted;
    FailReceiptOutcome(v, UNLIMITED);
    StepOutcome(v, UNLIMITED, Failed);
    if event.PullRequestReady? && AtOrAfter(v.task.state, Validating) {
      ReadyNeverCrashes(v, env, event.number, event.branch, event.sha);
    }
  }

  lemma StartNeverCrashes(v: View, id: Option<WorkerEventId>, env: Environment)
    requires !Terminal(v.task.state) && !v.task.cancel
    ensures !Handle(v, AgentStarted, id, env, UNLIMITED).Crashed?
  {
    hide CommitTransition, RecoverTo;
    if Startable(v.task.state) {
      RecoverUnlimited(v, Running, UNLIMITED, UNLIMITED);
      var w := RecoverTo(v, Running, UNLIMITED).v;
      StepOutcome(w, UNLIMITED - (Index(Running) - Index(v.task.state)), AgentRunning);
      if v.task.state == Running {
        StepOutcome(v, UNLIMITED, AgentRunning);
      }
    }
  }

  lemma FailedNeverCrashes(v: View, name: string, message: string, exit: int, id: Option<WorkerEventId>)
    requires !v.task.cancel
    ensures !HandleValidationFailed(v, name, message, exit, id, UNLIMITED).Crashed?
  {
    hide CommitTransition, FinishValidationFailed, RecordValidationResult, RecordValidationFailureDetail;
    if v.task.state == Validating {
      FirstTransactionFrame(v, name, message, exit, id);
      var first := RecordValidationResult(v, name, message, exit, id);
      var detail := RecordValidationFailureDetail(v, name, message, exit);
      if first.Ok? || detail.Ok? {
        FinishOutcome(if first.Ok? then first.value else detail.value, UNLIMITED - 1);
      }
    }
  }

  lemma ReadyNeverCrashes(v: View, env: Environment, number: nat, branch: string, sha: string)
    requires !Terminal(v.task.state) && !v.task.cancel && AtOrAfter(v.task.state, Validating)
    ensures !HandleReady(v, env, number, branch, sha, UNLIMITED).Crashed?
  {
    hide CommitTransition, FailReceipt, Resume, Inspect, RecordVerifiedPullRequest;
    FailReceiptOutcome(v, UNLIMITED);
    forall a: AttemptRow, b: int | b < 0 ensures !Resume(v.(attempt := a), b).Crashed? {
      ResumeNeverCrashes(v.(attempt := a), b);
    }
    assert v.(attempt := v.attempt) == v;
  }

  lemma ResumeNeverCrashes(v: View, b: int)
    requires !v.task.cancel && AtOrAfter(v.task.state, Validating) && b < 0
    ensures !Resume(v, b).Crashed?
  {
    ResumeLoopUnlimited(v, b, b);
  }
}
