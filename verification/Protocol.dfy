/** Protocol compatibility: the controller accepts every trace the worker can
    emit, and where it ends is decided by how the run ended. Also: delivering a
    whole trace at least once, with crashes anywhere, ends in the same state. */
module Protocol {
  import opened Wrappers
  import opened TaskState
  import opened Rows
  import opened Transactions
  import opened WorkerEvents
  import opened WorkerTrace
  import opened Receipts
  import opened Redelivery

  /** Events in order, with consecutive durable identities from `next`. */
  function Deliver(v: View, trace: seq<Event>, next: WorkerEventId, env: Environment): Delivery
    decreases |trace|
  {
    if trace == [] then Delivered(v)
    else
      match Handle(v, trace[0], Some(next), env, UNLIMITED)
      case Delivered(w) => Deliver(w, trace[1..], next + 1, env)
      case Crashed(w) => Crashed(w)
      case Rejected(w, e) => Rejected(w, e)
  }

  lemma {:induction false} DeliverAppend(v: View, s: seq<Event>, t: seq<Event>, next: WorkerEventId, env: Environment)
    ensures Deliver(v, s + t, next, env) ==
              if Deliver(v, s, next, env).Delivered? then Deliver(Deliver(v, s, next, env).v, t, next + |s|, env)
              else Deliver(v, s, next, env)
    decreases |s|
  {
    hide Handle;
    if s == [] {
      assert s + t == t;
    } else {
      assert (s + t)[1..] == s[1..] + t;
      var d := Handle(v, s[0], Some(next), env, UNLIMITED);
      if d.Delivered? {
        DeliverAppend(d.v, s[1..], t, next + 1, env);
      }
    }
  }

  // ------------------------------------------------------ the attempt being worked

  /** No command is running, a run failed exactly if its exit code is nonzero, and
      all identities are older than `next`. */
  predicate RunsSettled(runs: seq<ValidationRun>, next: WorkerEventId) {
    forall i | 0 <= i < |runs| ::
      && runs[i].state != RunRunning
      && (runs[i].state == RunFailed <==> runs[i].exitCode != Some(0))
      && (runs[i].startEvent.Some? ==> runs[i].startEvent.value < next)
      && (runs[i].resultEvent.Some? ==> runs[i].resultEvent.value < next)
  }

  predicate HasRun(runs: seq<ValidationRun>, name: string, exit: int) {
    exists i | 0 <= i < |runs| :: runs[i].name == name && runs[i].exitCode == Some(exit)
  }

  /** What does not change while an attempt is worked on: the branch identity, the
      manifest of the plan, and the copied pull request of a follow-up. */
  predicate Working(v: View, plan: Plan, env: Environment, next: WorkerEventId) {
    && !v.task.cancel
    && RunsSettled(v.attempt.runs, next) && v.attempt.validation == NotValidated
    && v.attempt.manifest.Some?
    && var m := v.attempt.manifest.value;
    && m.taskBranch == plan.branch && !Blank(plan.branch) && !Blank(m.baseBranch) && m.existingPr == plan.existingPr
    && BranchIdentity(v.attempt) == Ok(Branches(m.baseBranch, plan.branch))
    && (v.attempt.git.Some? ==> v.attempt.git.value.state == Candidate && v.attempt.git.value.branch == plan.branch)
    && (if plan.existingPr > 0 then
          // A follow-up: the copied pull request is open, as all earlier rows say.
          && env.prior == PriorNumber(plan.existingPr)
          && OpenPr(v.attempt) && v.attempt.pr.value.number == plan.existingPr
          && v.attempt.pr.value.head == plan.branch && v.attempt.pr.value.base == m.baseBranch
        else
          // A fresh task branch.
          && env.prior == NoPrior
          && (v.attempt.pr.Some? ==>
                && v.attempt.pr.value.state == Reported && v.attempt.pr.value.number > 0 && v.attempt.pr.value.url == "" && v.attempt.pr.value.title == ""
                && v.attempt.pr.value.head == plan.branch && v.attempt.pr.value.base == m.baseBranch))
  }

  /** The latest candidate is durable. */
  predicate Published(v: View, plan: Plan, env: Environment, next: WorkerEventId, number: nat, sha: string) {
    && Working(v, plan, env, next)
    && v.attempt.git == Some(GitRow(Candidate, plan.branch, sha))
    && v.attempt.pr.Some? && v.attempt.pr.value.number == number
  }

  predicate Repairable(s: State) {
    s == AgentRunning || s == Validating
  }

  /** `expected` is the pull request already reported, or the copied one, or 0. */
  predicate Expects(v: View, plan: Plan, expected: nat) {
    if v.attempt.pr.Some? then expected == v.attempt.pr.value.number else expected == plan.existingPr == 0
  }

  lemma AgentStep(v: View, plan: Plan, env: Environment, next: WorkerEventId)
    requires Working(v, plan, env, next) && (Startable(v.task.state) || Repairable(v.task.state))
    ensures var d := Handle(v, AgentStarted, Some(next), env, UNLIMITED);
            && d.Delivered? && Repairable(d.v.task.state)
            && d.v.attempt == v.attempt.(state := d.v.attempt.state)
            && Working(d.v, plan, env, next + 1)
  {
    hide CommitTransition, RecoverTo;
    if Startable(v.task.state) {
      CompleteStart(v, Some(next), env);
      RecoverFrame(v, Running, UNLIMITED);
      NeverCrashesUnlimited(v, AgentStarted, Some(next), env);
      StartIsAccepted(v, Some(next), env);
    }
  }

  lemma StartIsAccepted(v: View, id: Option<WorkerEventId>, env: Environment)
    requires id.Some? && Startable(v.task.state) && !v.task.cancel
    ensures Handle(v, AgentStarted, id, env, UNLIMITED).Delivered?
  {
    hide CommitTransition, RecoverTo;
    RecoverUnlimited(v, Running, UNLIMITED, UNLIMITED);
    var w := RecoverTo(v, Running, UNLIMITED).v;
    StepOutcome(w, UNLIMITED - (Index(Running) - Index(v.task.state)), AgentRunning);
    if v.task.state == Running {
      StepOutcome(v, UNLIMITED, AgentRunning);
    }
  }

  lemma {:induction false} RecoverFrame(v: View, target: State, k: int)
    requires !v.task.cancel && 0 <= Index(v.task.state) <= Index(target) < 10
    ensures var w := RecoverTo(v, target, k).v; w.attempt == v.attempt.(state := w.attempt.state) && !w.task.cancel
    decreases Index(target) - Index(v.task.state)
  {
    hide CommitTransition;
    if Index(v.task.state) < Index(target) {
      RecoverStep(v, target, k);
      RecoverFrame(Moved(v, LIFECYCLE[Index(v.task.state) + 1]), target, k - 1);
    }
  }

  lemma PublishStep(v: View, plan: Plan, env: Environment, next: WorkerEventId, expected: nat, number: nat, sha: string)
    requires Working(v, plan, env, next) && Repairable(v.task.state) && Expects(v, plan, expected)
    requires number > 0 && (expected > 0 ==> number == expected) && FullGitObjectId(sha)
    ensures var d := Handle(v, PullRequestPublished(number, plan.branch, sha), Some(next), env, UNLIMITED);
            && d.Delivered? && d.v.task == v.task
            && Published(d.v, plan, env, next + 1, number, sha)
            && d.v.attempt.runs == v.attempt.runs && d.v.attempt.manifest == v.attempt.manifest
  {
    hide RecordPullRequestCandidate, FailReceipt, CommitTransition;
    CandidateStep(v, plan, env, next, expected, number, sha);
  }

  lemma CandidateStep(v: View, plan: Plan, env: Environment, next: WorkerEventId, expected: nat, number: nat, sha: string)
    requires Working(v, plan, env, next) && Expects(v, plan, expected)
    requires number > 0 && (expected > 0 ==> number == expected) && FullGitObjectId(sha)
    ensures var git := GitRow(Candidate, plan.branch, sha);
            var tx := RecordPullRequestCandidate(v.attempt, env.prior, git, PrRow(Reported, number, "", "", plan.branch, v.attempt.manifest.value.baseBranch));
            tx.Ok? && tx.value == v.attempt.(git := Some(git), pr := tx.value.pr)
            && tx.value.pr.Some? && tx.value.pr.value.number == number
            && (if v.attempt.pr.Some? then tx.value.pr == v.attempt.pr
                else tx.value.pr.value == PrRow(Reported, number, "", "", plan.branch, v.attempt.manifest.value.baseBranch))
  {
    hide BranchIdentity, FullGitObjectId;
    assert plan.branch != "" && v.attempt.manifest.value.baseBranch != "";
  }

  // ------------------------------------------------------------- validation rounds

  /** The durable record of one finished command. */
  function Finished(name: string, exit: int, next: WorkerEventId): ValidationRun {
    ValidationRun(name, if exit == 0 then RunSucceeded else RunFailed, "", "", Some(exit), Some(next), Some(next + 1))
  }

  lemma StartStep(v: View, plan: Plan, env: Environment, next: WorkerEventId, name: string)
    requires Working(v, plan, env, next) && Repairable(v.task.state) && !Blank(name)
    ensures var d := Handle(v, StartedValidation(name, ""), Some(next), env, UNLIMITED);
            && d.Delivered? && d.v.task.state == Validating && !d.v.task.cancel
            && d.v.attempt == v.attempt.(state := d.v.attempt.state, runs := v.attempt.runs + [ValidationRun(name, RunRunning, "", "", None, Some(next), None)])
  {
    CanTransitionIsAdjacency(AgentRunning, Validating);
  }

  lemma {:induction false} FirstRunningIsLast(runs: seq<ValidationRun>, next: WorkerEventId, r: ValidationRun)
    requires RunsSettled(runs, next) && r.state == RunRunning
    ensures FirstRunning(runs + [r]) == |runs|
  {
    var i := FirstRunning(runs + [r]);
    assert (runs + [r])[|runs|].state == RunRunning;
    assert forall j | 0 <= j < |runs| :: (runs + [r])[j] == runs[j] && runs[j].state != RunRunning;
  }

  lemma CommandStep(v: View, plan: Plan, env: Environment, next: WorkerEventId, name: string, exit: int)
    requires Working(v, plan, env, next) && Repairable(v.task.state) && !Blank(name)
    ensures var d := Deliver(v, [StartedValidation(name, ""), FinishedValidation(name, "", exit)], next, env);
            && d.Delivered? && d.v.task.state == Validating
            && Working(d.v, plan, env, next + 2)
            && d.v.attempt == v.attempt.(state := d.v.attempt.state, runs := v.attempt.runs + [Finished(name, exit, next)])
  {
    hide Handle;
    StartStep(v, plan, env, next, name);
    var w := Handle(v, StartedValidation(name, ""), Some(next), env, UNLIMITED).v;
    FinishStep(v, w, plan, env, next, name, exit);
    var trace := [StartedValidation(name, ""), FinishedValidation(name, "", exit)];
    assert trace[1..] == [FinishedValidation(name, "", exit)] && trace[1..][1..] == [];
    assert Deliver(w, trace[1..], next + 1, env) == Handle(w, FinishedValidation(name, "", exit), Some(next + 1), env, UNLIMITED);
  }

  lemma FinishStep(v: View, w: View, plan: Plan, env: Environment, next: WorkerEventId, name: string, exit: int)
    requires Working(v, plan, env, next) && w.task.state == Validating && !w.task.cancel
    requires w.attempt == v.attempt.(state := w.attempt.state, runs := v.attempt.runs + [ValidationRun(name, RunRunning, "", "", None, Some(next), None)])
    ensures var d := Handle(w, FinishedValidation(name, "", exit), Some(next + 1), env, UNLIMITED);
            && d.Delivered? && d.v.task.state == Validating && Working(d.v, plan, env, next + 2)
            && d.v.attempt == v.attempt.(state := d.v.attempt.state, runs := v.attempt.runs + [Finished(name, exit, next)])
  {
    var runs := v.attempt.runs;
    var r := ValidationRun(name, RunRunning, "", "", None, Some(next), None);
    FirstRunningIsLast(runs, next, r);
    assert !FinishedBy(w.attempt.runs, Some(next + 1));
    assert (runs + [r])[|runs| := Finished(name, exit, next)] == runs + [Finished(name, exit, next)];
  }

  /** After one round of commands: still Working, one finished run per command. */
  lemma {:induction false} RoundStep(v: View, plan: Plan, env: Environment, next: WorkerEventId, commands: seq<string>, outcomes: seq<Outcome>)
    requires Working(v, plan, env, next) && |commands| == |outcomes| && (forall c | c in commands :: !Blank(c))
    requires Repairable(v.task.state) && (commands == [] ==> v.task.state == Validating)
    ensures var d := Deliver(v, CommandEvents(commands, outcomes), next, env);
            && d.Delivered? && d.v.task.state == Validating
            && Working(d.v, plan, env, next + 2 * |commands|)
            && d.v.attempt == v.attempt.(state := d.v.attempt.state, runs := d.v.attempt.runs)
            && v.attempt.runs <= d.v.attempt.runs && |d.v.attempt.runs| == |v.attempt.runs| + |commands|
            && (forall i | 0 <= i < |commands| ::
                  var r := d.v.attempt.runs[|v.attempt.runs| + i];
                  r.name == commands[i] && r.exitCode == Some(outcomes[i].exit))
    decreases |commands|
  {
    hide Handle;
    if commands != [] {
      var first := [StartedValidation(commands[0], ""), FinishedValidation(commands[0], "", outcomes[0].exit)];
      var rest := CommandEvents(commands[1..], outcomes[1..]);
      CommandStep(v, plan, env, next, commands[0], outcomes[0].exit);
      var w := Deliver(v, first, next, env).v;
      RoundStep(w, plan, env, next + 2, commands[1..], outcomes[1..]);
      DeliverAppend(v, first, rest, next, env);
      var d := Deliver(w, rest, next + 2, env);
      assert d == Deliver(v, CommandEvents(commands, outcomes), next, env);
      forall i | 0 <= i < |commands|
        ensures var r := d.v.attempt.runs[|v.attempt.runs| + i]; r.name == commands[i] && r.exitCode == Some(outcomes[i].exit)
      {
        var r := d.v.attempt.runs[|v.attempt.runs| + i];
        if i == 0 {
          assert r == w.attempt.runs[|v.attempt.runs|] == Finished(commands[0], outcomes[0].exit, next);
        } else {
          assert r == d.v.attempt.runs[|w.attempt.runs| + (i - 1)];
        }
      }
    }
  }

  // ------------------------------------------------------------------- endings

  lemma SucceededStep(v: View, plan: Plan, env: Environment, next: WorkerEventId)
    requires Working(v, plan, env, next) && v.task.state == Validating && v.attempt.runs != []
    ensures var d := Handle(v, SucceededValidation, Some(next), env, UNLIMITED);
            d == Delivered(v.(attempt := v.attempt.(validation := ValidationSucceeded)))
  {
  }

  /** validation_failed is accepted exactly if the command it names failed with a
      nonzero exit code; otherwise no durable failed run matches it. */
  lemma FailedStep(v: View, plan: Plan, env: Environment, next: WorkerEventId, name: string, summary: string, exit: int)
    requires Working(v, plan, env, next) && v.task.state == Validating && v.attempt.runs != []
    requires HasRun(v.attempt.runs, name, exit)
    ensures var d := Handle(v, FailedValidation(name, summary, exit), Some(next), env, UNLIMITED);
            if exit != 0 then d.Delivered? && d.v.task.state == Failed && d.v.attempt.validation == ValidationFailed
            else d == Rejected(v, Conflict)
  {
    hide CommitTransition, FinishValidationFailed, Handle, RunsSettled, LatestFailed, HasRun, BranchIdentity;
    FailedIs(v, FailedValidation(name, summary, exit), Some(next), env);
    SettledLookup(v, next, name, summary, exit);
    if exit != 0 {
      var i := LatestFailed(v.attempt.runs, name, exit);
      var w := RecordValidationFailureDetail(v, name, summary, exit).value;
      DetailKeepsRuns(v.attempt.runs, i, w.attempt.runs[i]);
      FinishOutcome(w, UNLIMITED - 1);
    }
  }

  lemma FailedIs(v: View, event: Event, id: Option<WorkerEventId>, env: Environment)
    requires event.FailedValidation? && v.task.state == Validating && !v.task.cancel
    ensures Handle(v, event, id, env, UNLIMITED) == HandleValidationFailed(v, event.name, event.message, event.exit, id, UNLIMITED)
  {
    hide HandleValidationFailed;
  }

  /** Among settled runs no result is open, and a failed one is found exactly for a
      nonzero exit code. */
  lemma SettledLookup(v: View, next: WorkerEventId, name: string, summary: string, exit: int)
    requires RunsSettled(v.attempt.runs, next) && v.task.state == Validating && HasRun(v.attempt.runs, name, exit)
    ensures !HasRunning(v.attempt.runs)
    ensures RecordValidationResult(v, name, summary, exit, Some(next)) == Err(Conflict)
    ensures LatestFailed(v.attempt.runs, name, exit) >= 0 <==> exit != 0
  {
    var runs := v.attempt.runs;
    assert !FinishedBy(runs, Some(next)) && FirstRunning(runs) == |runs|;
    var j :| 0 <= j < |runs| && runs[j].name == name && runs[j].exitCode == Some(exit);
    assert exit != 0 ==> runs[j].state == RunFailed;
  }

  /** One of the provider's first five answers is the reported pull request, open and on its
      branches, at the reported commit; the answers before it differ by their head alone. */
  predicate ProviderConfirms(env: Environment, m: Manifest, number: nat, sha: string) {
    && env.targetKnown
    && exists k | 0 <= k < |env.polls| ::
         ConfirmedAt(env.polls, k, env, m, number, sha) && !Blank(env.polls[k].url) && !Blank(env.polls[k].title)
  }

  lemma ReadyStep(v: View, plan: Plan, env: Environment, next: WorkerEventId, number: nat, sha: string)
    requires v.attempt.validation == ValidationSucceeded && v.task.state == Validating && number > 0 && FullGitObjectId(sha)
    requires Published(v.(attempt := v.attempt.(validation := NotValidated)), plan, env, next, number, sha)
    requires ProviderConfirms(env, v.attempt.manifest.value, number, sha)
    ensures var d := Handle(v, PullRequestReady(number, plan.branch, sha), Some(next), env, UNLIMITED);
            && d.Delivered? && d.v.task.state == PrOpen && PullRequestGate(d.v.attempt)
            && d.v.attempt.git == Some(GitRow(Pushed, plan.branch, sha)) && d.v.attempt.pr.value.number == number
  {
    hide Handle, RunsSettled, SettlingUntil, SameCommit;
    var m := v.attempt.manifest.value;
    var k :| 0 <= k < |env.polls| && ConfirmedAt(env.polls, k, env, m, number, sha) && !Blank(env.polls[k].url) && !Blank(env.polls[k].title);
    assert plan.branch != "" && ReceiptFits(v, env, number, plan.branch, sha);
    assert BranchIdentity(v.attempt) == BranchIdentity(v.attempt.(validation := NotValidated));
    ReceiptOutcome(v, env, number, plan.branch, sha, Some(next), k);
  }

  lemma WorkerFailedStep(v: View, env: Environment, next: WorkerEventId, message: string)
    requires !v.task.cancel && !Terminal(v.task.state) && ValidFailure(message)
    ensures Handle(v, WorkerFailed(message), Some(next), env, UNLIMITED) == Delivered(Moved(v, Failed))
  {
    StepOutcome(v, UNLIMITED, Failed);
  }

  // --------------------------------------------------------------- main results

  /** Where an accepted trace leaves the task. */
  predicate EndsAs(d: Delivery, plan: Plan, ending: Ending) {
    match ending
    case AgentFailed => d.Delivered? && d.v.task.state == Failed
    case ValidationGaveUp(exit) => if exit != 0 then d.Delivered? && d.v.task.state == Failed else d.Rejected? && d.v.task.state == Validating
    case ReadyReported(number, sha) =>
      && d.Delivered? && d.v.task.state == PrOpen && PullRequestGate(d.v.attempt)
      && d.v.attempt.git == Some(GitRow(Pushed, plan.branch, sha)) && d.v.attempt.pr.value.number == number
    case NothingPublished => d.Delivered? && Repairable(d.v.task.state)
    case ReadyWithheld => d.Delivered? && d.v.task.state == Validating
  }

  lemma DeliverTwo(v: View, first: Event, second: Event, next: WorkerEventId, env: Environment)
    requires var d := Handle(v, first, Some(next), env, UNLIMITED); d.Delivered? && Handle(d.v, second, Some(next + 1), env, UNLIMITED).Delivered?
    ensures Deliver(v, [first, second], next, env) == Handle(Handle(v, first, Some(next), env, UNLIMITED).v, second, Some(next + 1), env, UNLIMITED)
  {
    hide Handle;
    var v1 := Handle(v, first, Some(next), env, UNLIMITED).v;
    var v2 := Handle(v1, second, Some(next + 1), env, UNLIMITED).v;
    assert [first, second][1..] == [second] && [second][1..] == [];
    assert Deliver(v1, [second], next + 1, env) == Delivered(v2);
  }

  /** One published round, up to the events that close it. */
  lemma PublishedRound(v: View, plan: Plan, r: Round, expected: nat, env: Environment, next: WorkerEventId)
    requires ValidPlan(plan) && ValidRound(plan, r)
    requires Working(v, plan, env, next) && (Startable(v.task.state) || Repairable(v.task.state)) && Expects(v, plan, expected)
    requires r.invocation.ReportedPullRequest? && r.publication.PublishedCommit? && (expected > 0 ==> r.invocation.number == expected)
    ensures var number, sha := r.invocation.number, r.publication.sha;
            var head := [AgentStarted, PullRequestPublished(number, plan.branch, sha)] + CommandEvents(plan.commands, r.outcomes);
            var d := Deliver(v, head, next, env);
            && d.Delivered? && d.v.task.state == Validating && d.v.attempt.manifest == v.attempt.manifest
            && Published(d.v, plan, env, next + |head|, number, sha) && Expects(d.v, plan, number)
            && |d.v.attempt.runs| >= |plan.commands|
            && (forall i | 0 <= i < |plan.commands| ::
                  HasRun(d.v.attempt.runs, plan.commands[i], r.outcomes[i].exit))
  {
    hide Handle, CommandEvents, Working;
    var number, sha := r.invocation.number, r.publication.sha;
    var opening, commands := [AgentStarted, PullRequestPublished(number, plan.branch, sha)], CommandEvents(plan.commands, r.outcomes);
    AgentStep(v, plan, env, next);
    var v1 := Handle(v, AgentStarted, Some(next), env, UNLIMITED).v;
    PublishStep(v1, plan, env, next + 1, expected, number, sha);
    var v2 := Handle(v1, PullRequestPublished(number, plan.branch, sha), Some(next + 1), env, UNLIMITED).v;
    DeliverTwo(v, AgentStarted, PullRequestPublished(number, plan.branch, sha), next, env);
    RoundStep(v2, plan, env, next + 2, plan.commands, r.outcomes);
    DeliverAppend(v, opening, commands, next, env);
    var d := Deliver(v2, commands, next + 2, env);
    forall i | 0 <= i < |plan.commands|
      ensures HasRun(d.v.attempt.runs, plan.commands[i], r.outcomes[i].exit)
    {
      assert d.v.attempt.runs[|v2.attempt.runs| + i].name == plan.commands[i];
    }
  }

  lemma AgentFailure(v: View, plan: Plan, env: Environment, next: WorkerEventId, message: string)
    requires Working(v, plan, env, next) && (Startable(v.task.state) || Repairable(v.task.state)) && ValidFailure(message)
    ensures var d := Deliver(v, [AgentStarted, WorkerFailed(message)], next, env); d.Delivered? && d.v.task.state == Failed
  {
    hide Handle;
    AgentStep(v, plan, env, next);
    var w := Handle(v, AgentStarted, Some(next), env, UNLIMITED).v;
    WorkerFailedStep(w, env, next + 1, message);
    var trace := [AgentStarted, WorkerFailed(message)];
    assert trace[1..] == [WorkerFailed(message)] && trace[1..][1..] == [];
    assert Deliver(w, trace[1..], next + 1, env) == Handle(w, WorkerFailed(message), Some(next + 1), env, UNLIMITED);
  }

  lemma ClosingIsAccepted(v: View, plan: Plan, r: Round, ready: bool, env: Environment, next: WorkerEventId)
    requires ValidPlan(plan) && ValidRound(plan, r) && r.invocation.ReportedPullRequest? && r.publication.PublishedCommit?
    requires v.task.state == Validating && Published(v, plan, env, next, r.invocation.number, r.publication.sha) && v.attempt.runs != []
    requires forall i | 0 <= i < |plan.commands| ::
               HasRun(v.attempt.runs, plan.commands[i], r.outcomes[i].exit)
    requires var ending := Closing(plan, r, ready).ending;
             ending.ReadyReported? ==> ProviderConfirms(env, v.attempt.manifest.value, ending.number, ending.sha)
    ensures var run := Closing(plan, r, ready);
            EndsAs(Deliver(v, run.trace, next, env), plan, run.ending)
  {
    hide Handle, ProviderConfirms;
    var run := Closing(plan, r, ready);
    var last := LastFailure(r.outcomes);
    if last >= 0 {
      FailedStep(v, plan, env, next, plan.commands[last], plan.summary, r.outcomes[last].exit);
      assert run.trace[1..] == [];
    } else {
      SucceededStep(v, plan, env, next);
      var w := Handle(v, SucceededValidation, Some(next), env, UNLIMITED).v;
      if ready {
        assert w.(attempt := w.attempt.(validation := NotValidated)) == v;
        assert Published(v, plan, env, next + 1, r.invocation.number, r.publication.sha);
        ReadyStep(w, plan, env, next + 1, r.invocation.number, r.publication.sha);
        assert run.trace[1..] == [run.trace[1]] && run.trace[1..][1..] == [];
        assert Deliver(w, run.trace[1..], next + 1, env) == Handle(w, run.trace[1], Some(next + 1), env, UNLIMITED);
      } else {
        assert run.trace[1..] == [];
      }
    }
  }

  lemma MismatchIsReportable()
    ensures ValidFailure(MISMATCH_MESSAGE)
  {
    var c := MISMATCH_MESSAGE[0];
    assert c in MISMATCH_MESSAGE && c !in {' ', '\t', '\n', '\r'};
  }

  lemma {:induction false} RunIsAccepted(v: View, plan: Plan, rounds: seq<Round>, i: nat, expected: nat, ready: bool, env: Environment, next: WorkerEventId)
    requires ValidPlan(plan) && i <= plan.maxFixAttempts < |rounds| && forall r | r in rounds :: ValidRound(plan, r)
    requires Working(v, plan, env, next) && (Startable(v.task.state) || Repairable(v.task.state)) && Expects(v, plan, expected)
    requires var ending := RunFrom(plan, rounds, i, expected, ready).ending;
             ending.ReadyReported? ==> ProviderConfirms(env, v.attempt.manifest.value, ending.number, ending.sha)
    ensures var run := RunFrom(plan, rounds, i, expected, ready);
            EndsAs(Deliver(v, run.trace, next, env), plan, run.ending)
    decreases plan.maxFixAttempts - i
  {
    hide Handle, CommandEvents, ProviderConfirms, BranchIdentity, RunsSettled;
    var r := rounds[i];
    assert ValidRound(plan, r);
    var run := RunFrom(plan, rounds, i, expected, ready);
    if r.invocation.InvocationFailed? {
      AgentFailure(v, plan, env, next, r.invocation.message);
      return;
    }
    var number := r.invocation.number;
    if expected > 0 && number != expected {
      MismatchIsReportable();
      AgentFailure(v, plan, env, next, MISMATCH_MESSAGE);
      return;
    }
    if r.publication.PublicationFailed? {
      AgentStep(v, plan, env, next);
      assert [AgentStarted][1..] == [];
      return;
    }
    var sha := r.publication.sha;
    var head := [AgentStarted, PullRequestPublished(number, plan.branch, sha)] + CommandEvents(plan.commands, r.outcomes);
    PublishedRound(v, plan, r, expected, env, next);
    var w := Deliver(v, head, next, env).v;
    var tail := run.trace[|head|..];
    assert run.trace == head + tail;
    DeliverAppend(v, head, tail, next, env);
    if LastFailure(r.outcomes) >= 0 && i < plan.maxFixAttempts {
      assert tail == RunFrom(plan, rounds, i + 1, number, ready).trace;
      RunIsAccepted(w, plan, rounds, i + 1, number, ready, env, next + |head|);
    } else {
      assert tail == Closing(plan, r, ready).trace;
      ClosingIsAccepted(w, plan, r, ready, env, next + |head|);
    }
  }

  /** An attempt whose Job has started: nothing recorded yet, on a fresh task
      branch or on the branch of the copied pull request. */
  predicate FreshAttempt(v: View, plan: Plan, env: Environment, next: WorkerEventId) {
    Working(v, plan, env, next) && Startable(v.task.state) && v.attempt.git.None? && Expects(v, plan, plan.existingPr)
  }

  /** Every trace the worker can emit, for any commands and any number of fix
      rounds, is accepted without error and ends in PR_OPEN on a verified receipt
      and in FAILED on worker_failed or validation_failed - except that a final
      validation_failed naming exit code 0 (the output could not be collected) is
      refused, with every event before it accepted. */
  lemma WorkerRunIsAccepted(v: View, plan: Plan, rounds: seq<Round>, ready: bool, env: Environment, next: WorkerEventId)
    requires ValidPlan(plan) && plan.maxFixAttempts < |rounds| && forall r | r in rounds :: ValidRound(plan, r)
    requires FreshAttempt(v, plan, env, next)
    requires var ending := WorkerRun(plan, rounds, ready).ending;
             ending.ReadyReported? ==> ProviderConfirms(env, v.attempt.manifest.value, ending.number, ending.sha)
    ensures var run := WorkerRun(plan, rounds, ready);
            && EndsAs(Deliver(v, run.trace, next, env), plan, run.ending)
            && (Deliver(v, run.trace, next, env).Delivered? <==> run.ending != ValidationGaveUp(0))
  {
    RunIsAccepted(v, plan, rounds, 0, plan.existingPr, ready, env, next);
  }

  /** A run may be cut short: every prefix of an accepted trace is accepted. */
  lemma PrefixIsAccepted(v: View, trace: seq<Event>, n: nat, next: WorkerEventId, env: Environment)
    requires n <= |trace| && Deliver(v, trace, next, env).Delivered?
    ensures Deliver(v, trace[..n], next, env).Delivered?
  {
    assert trace == trace[..n] + trace[n..];
    DeliverAppend(v, trace[..n], trace[n..], next, env);
  }

  // ------------------------------------------------------------- crash schedules

  /** Equal rows, or - once cancellation owns the outcome - rows that differ only
      in audit observations. */
  predicate Same(v: View, w: View) {
    v == w || (v.task.cancel && w.task.cancel && !Terminal(v.task.state) && Core(v) == Core(w))
  }

  /** Deliveries of one event that were each cut after some transactions. */
  function Interrupted(v: View, event: Event, id: WorkerEventId, env: Environment, cuts: seq<int>): View
    decreases |cuts|
  {
    if cuts == [] then v else Interrupted(Handle(v, event, Some(id), env, cuts[0]).v, event, id, env, cuts[1..])
  }

  /** At-least-once delivery: each event is interrupted as its schedule says and
      then delivered completely before the next one. */
  function DeliverWithCrashes(v: View, trace: seq<Event>, schedule: seq<seq<int>>, next: WorkerEventId, env: Environment): View
    requires |schedule| == |trace|
    decreases |trace|
  {
    if trace == [] then v
    else
      var w := Handle(Interrupted(v, trace[0], next, env, schedule[0]), trace[0], Some(next), env, UNLIMITED).v;
      DeliverWithCrashes(w, trace[1..], schedule[1..], next + 1, env)
  }

  lemma HandleRespectsSame(v: View, w: View, event: Event, id: Option<WorkerEventId>, env: Environment)
    requires Same(v, w)
    ensures Same(Handle(v, event, id, env, UNLIMITED).v, Handle(w, event, id, env, UNLIMITED).v)
  {
    if v != w {
      ObservationIsInvisible(v);
      ObservationIsInvisible(w);
    }
  }

  lemma OneMoreDelivery(v: View, event: Event, id: Option<WorkerEventId>, env: Environment, k: int)
    requires id.Some?
    ensures Same(Handle(Handle(v, event, id, env, k).v, event, id, env, UNLIMITED).v, Handle(v, event, id, env, UNLIMITED).v)
  {
    if Terminal(v.task.state) || !v.task.cancel {
      hide Handle;
      RedeliveryIsExact(v, event, id, env, k);
    } else {
      ObservationIsInvisible(v);
      ObservationIsInvisible(RecordObservation(v));
    }
  }

  lemma {:induction false} InterruptionsAreInvisible(v: View, event: Event, id: WorkerEventId, env: Environment, cuts: seq<int>)
    ensures Same(Handle(Interrupted(v, event, id, env, cuts), event, Some(id), env, UNLIMITED).v, Handle(v, event, Some(id), env, UNLIMITED).v)
    decreases |cuts|
  {
    hide Handle;
    if cuts != [] {
      InterruptionsAreInvisible(Handle(v, event, Some(id), env, cuts[0]).v, event, id, env, cuts[1..]);
      OneMoreDelivery(v, event, Some(id), env, cuts[0]);
    }
  }

  /** Any crash schedule over an accepted trace ends where the uninterrupted trace ends. */
  lemma {:induction false} CrashesDoNotMatter(v: View, w: View, trace: seq<Event>, schedule: seq<seq<int>>, next: WorkerEventId, env: Environment)
    requires |schedule| == |trace| && Same(w, v) && Deliver(v, trace, next, env).Delivered?
    ensures Same(DeliverWithCrashes(w, trace, schedule, next, env), Deliver(v, trace, next, env).v)
    decreases |trace|
  {
    hide Handle, Interrupted;
    if trace != [] {
      InterruptionsAreInvisible(w, trace[0], next, env, schedule[0]);
      HandleRespectsSame(w, v, trace[0], Some(next), env);
      CrashesDoNotMatter(Handle(v, trace[0], Some(next), env, UNLIMITED).v,
                         Handle(Interrupted(w, trace[0], next, env, schedule[0]), trace[0], Some(next), env, UNLIMITED).v,
                         trace[1..], schedule[1..], next + 1, env);
    }
  }

  /** The two results together: however the controller crashes while it consumes a
      run that ends in a verified receipt, the task ends in PR_OPEN with the pushed
      candidate and the reported pull request durable. */
  lemma CrashingControllerReachesPrOpen(v: View, plan: Plan, rounds: seq<Round>, ready: bool, schedule: seq<seq<int>>, env: Environment, next: WorkerEventId)
    requires ValidPlan(plan) && plan.maxFixAttempts < |rounds| && forall r | r in rounds :: ValidRound(plan, r)
    requires FreshAttempt(v, plan, env, next)
    requires var run := WorkerRun(plan, rounds, ready);
             && |schedule| == |run.trace| && run.ending.ReadyReported?
             && ProviderConfirms(env, v.attempt.manifest.value, run.ending.number, run.ending.sha)
    ensures var run := WorkerRun(plan, rounds, ready);
            EndsAs(Delivered(DeliverWithCrashes(v, run.trace, schedule, next, env)), plan, run.ending)
  {
    hide WorkerRun;
    var run := WorkerRun(plan, rounds, ready);
    WorkerRunIsAccepted(v, plan, rounds, ready, env, next);
    CrashesDoNotMatter(v, v, run.trace, schedule, next, env);
  }
}
