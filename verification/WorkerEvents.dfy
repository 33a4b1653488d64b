/** The controller's handling of one worker event, as a sequence of store
    transactions that a crash may cut anywhere. `budget` is the number of
    transactions that still commit before the crash; a negative budget never
    runs out. Forge-event completion after PR_OPEN is not part of the view. */
module WorkerEvents {
  import opened Wrappers
  import opened TaskState
  import opened Rows
  import opened Transactions

  datatype Event =
    | AgentStarted
    | StartedValidation(name: string, message: string)
    | FinishedValidation(name: string, message: string, exit: int)
    | SucceededValidation
    | FailedValidation(name: string, message: string, exit: int)
    | PullRequestPublished(number: nat, branch: string, sha: string)
    | PullRequestReady(number: nat, branch: string, sha: string)
    | WorkerFailed(message: string)
    | BranchPushed(branch: string, sha: string)
    | Unsupported

  /** What the provider says about the reported pull request at one poll. */
  datatype Poll =
    | TransientError
    | PermanentError
    | Live(isOpen: bool, sameRepository: bool, number: nat, head: string, base: string, url: string, title: string, sha: string)

  /** Everything an event needs besides the durable rows. */
  datatype Environment = Environment(
    prior: Prior,                             // other attempts' open pull requests
    polls: seq<Poll>,                         // the provider's answers, in order
    targetKnown: bool,                        // the immutable forge target decodes
    validMetadata: (string, string) -> bool,  // URL and title are acceptable
    validUrl: (string, nat) -> bool)          // URL belongs to the repository and number

  datatype Delivery =
    | Delivered(v: View)
    | Crashed(v: View)
    | Rejected(v: View, error: Error)

  const UNLIMITED := -1
  const WORKER_MESSAGE_LIMIT := 32768
  const HEAD_SETTLE_RETRIES := 4

  // -------------------------------------------------------- one transaction each

  function Commit(v: View, budget: int, tx: Result<View>): Delivery {
    if budget == 0 then Crashed(v)
    else match tx
         case Ok(w) => Delivered(w)
         case Err(e) => Rejected(v, e)
  }

  function CommitTransition(v: View, budget: int, to: State): Delivery {
    Commit(v, budget, Transition(v, v.task.state, to, NoChange))
  }

  /** `failPullRequestReceipt` for a permanent cause: FAILED, and the event is refused. */
  function FailReceipt(v: View, budget: int): Delivery {
    match CommitTransition(v, budget, Failed)
    case Delivered(w) => Rejected(w, Conflict)
    case Crashed(w) => Crashed(w)
    case Rejected(w, _) => Rejected(w, Conflict)
  }

  // ------------------------------------------------------------ multi-step parts

  /** `recoverTo`: one transition per lifecycle step up to the target. */
  function RecoverTo(v: View, target: State, budget: int): Delivery
    decreases 13 - Index(v.task.state)
  {
    if Index(v.task.state) < 0 || Index(target) < 0 || Index(v.task.state) >= Index(target) then Delivered(v)
    else
      match CommitTransition(v, budget, LIFECYCLE[Index(v.task.state) + 1])
      case Delivered(w) => LifecycleIndex(Index(v.task.state) + 1); RecoverTo(w, target, budget - 1)
      case Crashed(w) => Crashed(w)
      case Rejected(w, e) => Rejected(w, e)
  }

  /** `eventTransition`: nothing to do at or after the target. */
  function EventTransition(v: View, expected: State, next: State, budget: int): Delivery {
    if AtOrAfter(v.task.state, next) then Delivered(v)
    else if v.task.state != expected then Rejected(v, Conflict)
    else CommitTransition(v, budget, next)
  }

  /** The evidence `resumePullRequestLocked` reads before it resumes. */
  predicate ResumeEvidence(a: AttemptRow) {
    && PushedGit(a) && OpenPr(a)
    && a.git.value.branch != "" && a.git.value.sha != ""
    && a.pr.value.number > 0 && a.pr.value.url != "" && a.pr.value.title != ""
    && a.pr.value.head == a.git.value.branch
  }

  /** The resume loop: VALIDATING to PR_OPEN, one transition per round. */
  function ResumeLoop(v: View, budget: int): Delivery
    decreases 13 - Index(v.task.state)
  {
    match v.task.state
    case Validating =>
      if v.attempt.validation != ValidationSucceeded then Rejected(v, Conflict) else ResumeStep(v, Committing, budget)
    case Committing => ResumeStep(v, Pushing, budget)
    case Pushing => ResumeStep(v, CreatingPr, budget)
    case CreatingPr => ResumeStep(v, PrOpen, budget)
    case PrOpen => Delivered(v)
    case WaitingCi => Delivered(v)
    case WaitingReview => Delivered(v)
    case Ready => Delivered(v)
    case _ => Rejected(v, Conflict)
  }

  function ResumeStep(v: View, next: State, budget: int): Delivery
    requires 0 <= Index(v.task.state) < Index(next)
    decreases 13 - Index(v.task.state), 0
  {
    match CommitTransition(v, budget, next)
    case Delivered(w) => ResumeLoop(w, budget - 1)
    case Crashed(w) => Crashed(w)
    case Rejected(w, e) => Rejected(w, e)
  }

  function Resume(v: View, budget: int): Delivery {
    if v.task.cancel || v.task.state == Cancelled then Delivered(v)
    else if !ResumeEvidence(v.attempt) then Rejected(v, Conflict)
    else ResumeLoop(v, budget)
  }

  // ----------------------------------------------------------- receipt validation

  /** `ValidateEvent` for a report of a pull request. */
  predicate ValidReport(number: nat, branch: string, sha: string, expected: string) {
    number > 0 && expected != "" && branch == expected && FullGitObjectId(sha)
  }

  /** `providerCommitMatchesDurable`, on case-folded object names. */
  predicate SameCommit(provider: string, durable: string) {
    && 7 <= |provider| <= 64
    && (forall c | c in provider :: '0' <= c <= '9' || 'a' <= c <= 'f')
    && FullGitObjectId(durable)
    && provider <= durable
  }

  predicate CandidateMatchesReceipt(a: AttemptRow, number: nat, branch: string, sha: string)
    requires a.manifest.Some?
  {
    && a.git.Some? && a.pr.Some?
    && (PushedGit(a) ==> OpenPr(a))
    && a.git.value.branch == branch && a.git.value.sha == sha
    && a.pr.value.number == number
    && a.pr.value.head == a.manifest.value.taskBranch && a.pr.value.base == a.manifest.value.baseBranch
    && (a.manifest.value.existingPr == 0 || number == a.manifest.value.existingPr)
  }

  predicate DurableMatchesReceipt(a: AttemptRow, env: Environment, number: nat, branch: string, sha: string)
    requires a.manifest.Some?
  {
    && CandidateMatchesReceipt(a, number, branch, sha) && PushedGit(a)
    && env.validMetadata(a.pr.value.url, a.pr.value.title) && env.validUrl(a.pr.value.url, number)
  }

  datatype Verdict = Verified(live: Poll) | Unsettled | Permanent | Transient

  /** `verifyReportedPullRequest` on one answer. */
  function Judge(poll: Poll, env: Environment, m: Manifest, number: nat, sha: string): (verdict: Verdict)
    ensures verdict.Verified? ==> verdict.live == poll && poll.Live?
  {
    match poll
    case TransientError => Transient
    case PermanentError => Permanent
    case Live(isOpen, sameRepository, n, head, base, url, title, liveSha) =>
      if !env.validMetadata(url, title) || !isOpen || n != number || head != m.taskBranch || base != m.baseBranch
         || !sameRepository || !env.validUrl(url, number) then Permanent
      else if !SameCommit(liveSha, sha) then Unsettled
      else Verified(poll)
  }

  /** The polling loop: an unsettled head is asked for at most four more times. */
  function Inspect(polls: seq<Poll>, retry: nat, env: Environment, m: Manifest, number: nat, sha: string): (verdict: Verdict)
    requires retry <= HEAD_SETTLE_RETRIES
    ensures verdict.Verified? ==> verdict.live.Live? && Judge(verdict.live, env, m, number, sha).Verified?
    ensures !verdict.Unsettled?
    decreases HEAD_SETTLE_RETRIES - retry
  {
    if polls == [] then Transient
    else
      match Judge(polls[0], env, m, number, sha)
      case Verified(live) => Verified(live)
      case Permanent => Permanent
      case Transient => Transient
      case Unsettled => if retry == HEAD_SETTLE_RETRIES then Permanent else Inspect(polls[1..], retry + 1, env, m, number, sha)
  }

  // -------------------------------------------------------------------- handlers

  function HandlePublished(v: View, env: Environment, number: nat, branch: string, sha: string, budget: int): Delivery {
    if v.task.state != AgentRunning && v.task.state != Validating then Rejected(v, Conflict)
    else if v.attempt.manifest.None? then Rejected(v, Invalid)
    else
      var m := v.attempt.manifest.value;
      if !ValidReport(number, branch, sha, m.taskBranch) then FailReceipt(v, budget)
      else if m.existingPr > 0 && number != m.existingPr then FailReceipt(v, budget)
      else
        match RecordPullRequestCandidate(v.attempt, env.prior, GitRow(Candidate, branch, sha), PrRow(Reported, number, "", "", branch, m.baseBranch))
        case Ok(a) => Commit(v, budget, Ok(v.(attempt := a)))
        case Err(Conflict) => FailReceipt(v, budget)
        case Err(e) => Rejected(v, e)
  }

  function HandleReady(v: View, env: Environment, number: nat, branch: string, sha: string, budget: int): Delivery {
    if v.attempt.manifest.None? then FailReceipt(v, budget)
    else
      var m := v.attempt.manifest.value;
      if !ValidReport(number, branch, sha, m.taskBranch) then FailReceipt(v, budget)
      else if !AtOrAfter(v.task.state, Validating) || v.attempt.validation != ValidationSucceeded then FailReceipt(v, budget)
      else if !env.targetKnown then FailReceipt(v, budget)
      else if !CandidateMatchesReceipt(v.attempt, number, branch, sha) then FailReceipt(v, budget)
      else if PushedGit(v.attempt) then
        if DurableMatchesReceipt(v.attempt, env, number, branch, sha) then Resume(v, budget) else FailReceipt(v, budget)
      else
        match Inspect(env.polls, 0, env, m, number, sha)
        case Transient => Rejected(v, Invalid)
        case Permanent => FailReceipt(v, budget)
        case Verified(live) =>
          var tx := RecordVerifiedPullRequest(v.attempt, GitRow(Pushed, branch, sha),
                                              PrRow(Open, live.number, live.url, live.title, live.head, live.base),
                                              env.validMetadata(live.url, live.title));
          match tx
          case Err(Conflict) => FailReceipt(v, budget)
          case Err(e) => Rejected(v, e)
          case Ok(a) => if budget == 0 then Crashed(v) else Resume(v.(attempt := a), budget - 1)
  }

  function HandleValidationFailed(v: View, name: string, message: string, exit: int, event: Option<WorkerEventId>, budget: int): Delivery {
    if v.task.state != Validating then Rejected(v, Conflict)
    else
      match RecordValidationResult(v, name, message, exit, event)
      case Ok(w) => if budget == 0 then Crashed(v) else FinishValidationFailed(w, budget - 1)
      case Err(Conflict) =>
        (match RecordValidationFailureDetail(v, name, message, exit)
         case Ok(w) => if budget == 0 then Crashed(v) else FinishValidationFailed(w, budget - 1)
         case Err(e) => Rejected(v, e))
      case Err(e) => Rejected(v, e)
  }

  function FinishValidationFailed(v: View, budget: int): Delivery {
    match Commit(v, budget, MarkValidationComplete(v, ValidationFailed))
    case Delivered(w) => CommitTransition(w, budget - 1, Failed)
    case Crashed(w) => Crashed(w)
    case Rejected(w, e) => Rejected(w, e)
  }

  function HandleStartedValidation(v: View, name: string, message: string, event: Option<WorkerEventId>, budget: int): Delivery {
    if v.task.state == Validating then Commit(v, budget, RecordValidationStarted(v, name, message, event))
    else if v.task.state != AgentRunning then
      if AtOrAfter(v.task.state, Committing) then Delivered(v) else Rejected(v, Conflict)
    else Commit(v, budget, Transition(v, AgentRunning, Validating, StartRun(name, message, event)))
  }

  function HandleAgentStarted(v: View, event: Option<WorkerEventId>, budget: int): Delivery {
    if event.Some? && (v.task.state == CreatingJob || v.task.state == JobPending) then
      match RecoverTo(v, Running, budget)
      case Delivered(w) => EventTransition(w, Running, AgentRunning, budget - (Index(Running) - Index(v.task.state)))
      case Crashed(w) => Crashed(w)
      case Rejected(w, e) => Rejected(w, e)
    else EventTransition(v, Running, AgentRunning, budget)
  }

  /** `handleLegacyBranchPushedLocked`: only a finished attempt survives it. */
  function HandleBranchPushed(v: View, env: Environment, branch: string, sha: string, budget: int): Delivery {
    if v.attempt.manifest.None? || v.attempt.manifest.value.taskBranch == "" then Rejected(v, Invalid)
    else if |branch| > 1024 || branch != v.attempt.manifest.value.taskBranch || !FullGitObjectId(sha) then Rejected(v, Invalid)
    else
      var a := v.attempt;
      if AtOrAfter(v.task.state, PrOpen) && PushedGit(a) && OpenPr(a) && a.git.value.branch == branch && a.git.value.sha == sha
         && a.pr.value.number > 0 && a.pr.value.head == branch && env.validMetadata(a.pr.value.url, a.pr.value.title)
      then Delivered(v) else CommitTransition(v, budget, Failed)
  }

  /** `handleWorkerEvent`, after the event has been authorised for the current attempt. */
  function Handle(v: View, event: Event, id: Option<WorkerEventId>, env: Environment, budget: int): Delivery {
    if Terminal(v.task.state) then Delivered(v)
    else if v.task.cancel then Commit(v, budget, Ok(RecordObservation(v)))
    else
      match event
      case BranchPushed(branch, sha) => HandleBranchPushed(v, env, branch, sha, budget)
      case PullRequestPublished(number, branch, sha) => HandlePublished(v, env, number, branch, sha, budget)
      case PullRequestReady(number, branch, sha) => HandleReady(v, env, number, branch, sha, budget)
      case AgentStarted => HandleAgentStarted(v, id, budget)
      case StartedValidation(name, message) => HandleStartedValidation(v, name, message, id, budget)
      case FinishedValidation(name, message, exit) =>
        if v.task.state != Validating then Rejected(v, Conflict)
        else Commit(v, budget, RecordValidationResult(v, name, message, exit, id))
      case SucceededValidation =>
        if AtOrAfter(v.task.state, Committing) then Delivered(v)
        else if v.task.state != Validating then Rejected(v, Conflict)
        else Commit(v, budget, MarkValidationComplete(v, ValidationSucceeded))
      case FailedValidation(name, message, exit) => HandleValidationFailed(v, name, message, exit, id, budget)
      case WorkerFailed(message) =>
        if Blank(message) || |message| > WORKER_MESSAGE_LIMIT then Rejected(v, Invalid)
        else CommitTransition(v, budget, Failed)
      case Unsupported => Rejected(v, Invalid)
  }
}
