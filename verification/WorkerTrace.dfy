/** The worker's side of the protocol: which event traces one run can emit. What
    the agent, Git and the validation commands do is an oracle; everything else
    follows the worker's control flow. */
module WorkerTrace {
  import opened Rows
  import opened WorkerEvents

  /** One agent invocation. */
  datatype Invocation =
    | ReportedPullRequest(number: nat)
    | InvocationFailed(message: string)

  /** One check of the published branch. */
  datatype Publication =
    | PublishedCommit(sha: string)
    | PublicationFailed

  /** How one validation command ended; `runError` is a failure to
      run it or to collect its output, which an exit code of 0 does not rule out. */
  datatype Outcome = Outcome(exit: int, runError: bool)

  /** The oracle for one round: the agent, the published branch, one outcome per command. */
  datatype Round = Round(invocation: Invocation, publication: Publication, outcomes: seq<Outcome>)

  /** The part of the task manifest the run depends on. */
  datatype Plan = Plan(branch: string, existingPr: nat, commands: seq<string>, maxFixAttempts: nat, summary: string)

  predicate Passed(o: Outcome) {
    !o.runError && o.exit == 0
  }

  /** The manifest and result-file validators guarantee these shapes. */
  predicate ValidPlan(plan: Plan) {
    plan.branch != "" && plan.commands != [] && forall c | c in plan.commands :: !Blank(c)
  }

  predicate ValidRound(plan: Plan, r: Round) {
    && (r.invocation.ReportedPullRequest? ==> r.invocation.number > 0)
    && (r.invocation.InvocationFailed? ==> ValidFailure(r.invocation.message))
    && (r.publication.PublishedCommit? ==> FullGitObjectId(r.publication.sha))
    && |r.outcomes| == |plan.commands|
  }

  predicate ValidFailure(message: string) {
    !Blank(message) && |message| <= WORKER_MESSAGE_LIMIT
  }

  const MISMATCH_MESSAGE := "OpenCode reported an unexpected pull request"

  /** One validation round: a start and a result per command, all commands run. */
  function CommandEvents(commands: seq<string>, outcomes: seq<Outcome>): (trace: seq<Event>)
    requires |commands| == |outcomes|
    ensures |trace| == 2 * |commands|
  {
    if commands == [] then []
    else [StartedValidation(commands[0], ""), FinishedValidation(commands[0], "", outcomes[0].exit)]
         + CommandEvents(commands[1..], outcomes[1..])
  }

  /** The last command that did not pass, or -1. */
  function LastFailure(outcomes: seq<Outcome>): (i: int)
    ensures -1 <= i < |outcomes|
    ensures i >= 0 ==> !Passed(outcomes[i])
    ensures forall j | i < j < |outcomes| :: Passed(outcomes[j])
  {
    if outcomes == [] then -1
    else if !Passed(outcomes[|outcomes| - 1]) then |outcomes| - 1
    else LastFailure(outcomes[..|outcomes| - 1])
  }

  /** How a run ends. */
  datatype Ending =
    | AgentFailed                            // worker_failed
    | NothingPublished                       // no event: the branch check failed
    | ValidationGaveUp(exit: int)            // validation_failed with this exit code
    | ReadyReported(number: nat, sha: string)  // pull_request_ready
    | ReadyWithheld                          // the final branch check failed

  datatype Run = Run(trace: seq<Event>, ending: Ending)

  /** How the last round closes: success and the receipt, or giving up. */
  function Closing(plan: Plan, r: Round, ready: bool): Run
    requires ValidRound(plan, r) && r.invocation.ReportedPullRequest? && r.publication.PublishedCommit?
  {
    var number, sha, last := r.invocation.number, r.publication.sha, LastFailure(r.outcomes);
    if last >= 0 then Run([FailedValidation(plan.commands[last], plan.summary, r.outcomes[last].exit)], ValidationGaveUp(r.outcomes[last].exit))
    else if ready then Run([SucceededValidation, PullRequestReady(number, plan.branch, sha)], ReadyReported(number, sha))
    else Run([SucceededValidation], ReadyWithheld)
  }

  /** The events from fix attempt `i` on. `expected` is the pull request a repair
      must keep; 0 accepts any. `ready` says whether the final branch check passes. */
  function RunFrom(plan: Plan, rounds: seq<Round>, i: nat, expected: nat, ready: bool): Run
    requires ValidPlan(plan) && i <= plan.maxFixAttempts < |rounds|
    requires forall r | r in rounds :: ValidRound(plan, r)
    decreases plan.maxFixAttempts - i
  {
    var r := rounds[i];
    assert ValidRound(plan, r);
    match r.invocation
    case InvocationFailed(message) => Run([AgentStarted, WorkerFailed(message)], AgentFailed)
    case ReportedPullRequest(number) =>
      if expected > 0 && number != expected then Run([AgentStarted, WorkerFailed(MISMATCH_MESSAGE)], AgentFailed)
      else if r.publication.PublicationFailed? then Run([AgentStarted], NothingPublished)
      else
        var head := [AgentStarted, PullRequestPublished(number, plan.branch, r.publication.sha)] + CommandEvents(plan.commands, r.outcomes);
        var last := LastFailure(r.outcomes);
        if last < 0 || i == plan.maxFixAttempts then Run(head + Closing(plan, r, ready).trace, Closing(plan, r, ready).ending)
        else
          var rest := RunFrom(plan, rounds, i + 1, number, ready);
          Run(head + rest.trace, rest.ending)
  }

  function WorkerRun(plan: Plan, rounds: seq<Round>, ready: bool): Run
    requires ValidPlan(plan) && plan.maxFixAttempts < |rounds|
    requires forall r | r in rounds :: ValidRound(plan, r)
  {
    RunFrom(plan, rounds, 0, plan.existingPr, ready)
  }

  /** `runValidationRound` as the worker runs it: every command, remembering the last failure. */
  method RunValidationRound(commands: seq<string>, outcomes: seq<Outcome>) returns (events: seq<Event>, failure: int)
    requires |commands| == |outcomes|
    ensures events == CommandEvents(commands, outcomes)
    ensures failure == LastFailure(outcomes)
  {
    events, failure := [], -1;
    for i := 0 to |commands|
      invariant events + CommandEvents(commands[i..], outcomes[i..]) == CommandEvents(commands, outcomes)
      invariant failure == LastFailure(outcomes[..i])
    {
      var rest := CommandEvents(commands[i + 1..], outcomes[i + 1..]);
      assert commands[i..][1..] == commands[i + 1..] && outcomes[i..][1..] == outcomes[i + 1..];
      assert outcomes[..i + 1][..i] == outcomes[..i];
      events := events + [StartedValidation(commands[i], ""), FinishedValidation(commands[i], "", outcomes[i].exit)];
      if !Passed(outcomes[i]) {
        failure := i;
      }
    }
    assert outcomes[..|outcomes|] == outcomes;
  }

  /** One turn of the fix loop: agent, publication, validation and its closing event. */
  method RunAttempt(plan: Plan, rounds: seq<Round>, attempt: nat, expected: nat, ready: bool)
    returns (events: seq<Event>, done: bool, number: nat)
    requires ValidPlan(plan) && attempt <= plan.maxFixAttempts < |rounds|
    requires forall r | r in rounds :: ValidRound(plan, r)
    ensures !done ==> attempt < plan.maxFixAttempts
    ensures RunFrom(plan, rounds, attempt, expected, ready).trace
         == events + if done then [] else RunFrom(plan, rounds, attempt + 1, number, ready).trace
  {
    var r := rounds[attempt];
    assert ValidRound(plan, r);
    events, done, number := [AgentStarted], true, 0;
    if r.invocation.InvocationFailed? {
      return events + [WorkerFailed(r.invocation.message)], true, 0;
    }
    number := r.invocation.number;
    if expected > 0 && number != expected {
      return events + [WorkerFailed(MISMATCH_MESSAGE)], true, number;
    }
    if r.publication.PublicationFailed? {
      return;
    }
    var round, last := RunValidationRound(plan.commands, r.outcomes);
    events := [AgentStarted, PullRequestPublished(number, plan.branch, r.publication.sha)] + round;
    if last < 0 {
      events := events + [SucceededValidation];
      if ready {
        events := events + [PullRequestReady(number, plan.branch, r.publication.sha)];
      }
    } else if attempt == plan.maxFixAttempts {
      events := events + [FailedValidation(plan.commands[last], plan.summary, r.outcomes[last].exit)];
    } else {
      done := false;
    }
  }

  /** `runAgentValidation` followed by `emitReadyCandidate`: the loop over fix attempts. */
  method RunAgentValidation(plan: Plan, rounds: seq<Round>, ready: bool) returns (trace: seq<Event>)
    requires ValidPlan(plan) && plan.maxFixAttempts < |rounds|
    requires forall r | r in rounds :: ValidRound(plan, r)
    ensures trace == WorkerRun(plan, rounds, ready).trace
  {
    hide RunFrom;
    var expected, attempt := plan.existingPr, 0;
    var done := false;
    trace := [];
    ghost var rest := RunFrom(plan, rounds, 0, expected, ready).trace;
    while !done
      invariant attempt <= plan.maxFixAttempts
      invariant trace + rest == WorkerRun(plan, rounds, ready).trace
      invariant rest == if done then [] else RunFrom(plan, rounds, attempt, expected, ready).trace
      decreases !done, plan.maxFixAttempts - attempt
    {
      var events, finished, number := RunAttempt(plan, rounds, attempt, expected, ready);
      trace := trace + events;
      if finished {
        done, rest := true, [];
      } else {
        attempt, expected := attempt + 1, number;
        rest := RunFrom(plan, rounds, attempt, expected, ready).trace;
      }
    }
  }
}
