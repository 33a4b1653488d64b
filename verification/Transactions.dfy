/** The store transactions that touch one task and its current attempt. Each is
    atomic: it either gives the complete new rows or refuses and changes nothing. */
module Transactions {
  import opened Wrappers
  import opened TaskState
  import opened Rows

  // ------------------------------------------------------------ validation runs

  /** The validation change a transition may carry. */
  datatype ValidationChange =
    | NoChange
    | StartRun(name: string, summary: string, event: Option<WorkerEventId>)
    | FinishRuns(succeeded: bool, summary: string, error: string)

  predicate HasRunning(runs: seq<ValidationRun>) {
    exists i | 0 <= i < |runs| :: runs[i].state == RunRunning
  }

  /** Commands of an attempt run one at a time. */
  predicate OneRunning(runs: seq<ValidationRun>) {
    forall i, j | 0 <= i < j < |runs| :: runs[i].state != RunRunning || runs[j].state != RunRunning
  }

  predicate StartedBy(runs: seq<ValidationRun>, event: Option<WorkerEventId>) {
    event.Some? && exists i | 0 <= i < |runs| :: runs[i].startEvent == event
  }

  predicate FinishedBy(runs: seq<ValidationRun>, event: Option<WorkerEventId>) {
    event.Some? && exists i | 0 <= i < |runs| :: runs[i].resultEvent == event
  }

  /** The first running command in sequence order, or |runs|. */
  function FirstRunning(runs: seq<ValidationRun>): (i: nat)
    ensures i <= |runs|
    ensures i < |runs| ==> runs[i].state == RunRunning
    ensures forall j | 0 <= j < i :: runs[j].state != RunRunning
  {
    if runs == [] then 0
    else if runs[0].state == RunRunning then 0
    else 1 + FirstRunning(runs[1..])
  }

  /** The latest failed run with this command and exit code, or -1. */
  function LatestFailed(runs: seq<ValidationRun>, name: string, exit: int): (i: int)
    ensures -1 <= i < |runs|
    ensures i >= 0 ==> runs[i].name == name && runs[i].state == RunFailed && runs[i].exitCode == Some(exit)
    ensures forall j | i < j < |runs| :: !(runs[j].name == name && runs[j].state == RunFailed && runs[j].exitCode == Some(exit))
  {
    if runs == [] then -1
    else
      var last := |runs| - 1;
      if runs[last].name == name && runs[last].state == RunFailed && runs[last].exitCode == Some(exit) then last
      else LatestFailed(runs[..last], name, exit)
  }

  function ApplyValidation(a: AttemptRow, change: ValidationChange): Result<AttemptRow> {
    match change
    case NoChange => Ok(a)
    case StartRun(name, summary, event) =>
      if Blank(name) then Err(Invalid)
      else if HasRunning(a.runs) then Err(Conflict)
      else Ok(a.(runs := a.runs + [ValidationRun(name, RunRunning, summary, "", None, event, None)]))
    case FinishRuns(succeeded, summary, error) =>
      if !succeeded && !HasRunning(a.runs) then Err(Conflict)
      else
        var runs := seq(|a.runs|, i requires 0 <= i < |a.runs| =>
          if a.runs[i].state == RunRunning then
            a.runs[i].(state := if succeeded then RunSucceeded else RunFailed,
                       summary := if summary == "" then a.runs[i].summary else summary,
                       error := if error == "" then a.runs[i].error else error)
          else a.runs[i]);
        Ok(a.(runs := runs, validation := if succeeded then ValidationSucceeded else ValidationFailed))
  }

  function RecordValidationStarted(v: View, name: string, summary: string, event: Option<WorkerEventId>): Result<View> {
    if StartedBy(v.attempt.runs, event) then Ok(v)
    else if v.task.state != Validating then Err(Conflict)
    else
      match ApplyValidation(v.attempt, StartRun(name, summary, event))
      case Ok(a) => Ok(v.(attempt := a))
      case Err(e) => Err(e)
  }

  function RecordValidationResult(v: View, name: string, summary: string, exit: int, event: Option<WorkerEventId>): Result<View> {
    var runs := v.attempt.runs;
    if FinishedBy(runs, event) then Ok(v)
    else if v.task.state != Validating then Err(Conflict)
    else
      var i := FirstRunning(runs);
      if i == |runs| || runs[i].name != name then Err(Conflict)
      else
        var done := runs[i].(state := if exit == 0 then RunSucceeded else RunFailed, summary := summary,
                             error := if exit == 0 then "" else summary, exitCode := Some(exit), resultEvent := event);
        Ok(v.(attempt := v.attempt.(runs := runs[i := done])))
  }

  function MarkValidationComplete(v: View, state: ValidationState): Result<View> {
    if state == NotValidated then Err(Invalid)
    else if HasRunning(v.attempt.runs) || v.attempt.runs == [] then Err(Conflict)
    else Ok(v.(attempt := v.attempt.(validation := state)))
  }

  function RecordValidationFailureDetail(v: View, name: string, detail: string, exit: int): Result<View> {
    var i := LatestFailed(v.attempt.runs, name, exit);
    if i < 0 then Err(Conflict)
    else Ok(v.(attempt := v.attempt.(runs := v.attempt.runs[i := v.attempt.runs[i].(summary := detail, error := detail)])))
  }

  // ------------------------------------------------------------------ lifecycle

  /** `Transition`: the only way, besides the two resets, that a task changes state. */
  function Transition(v: View, from: State, to: State, change: ValidationChange): Result<View> {
    if !CanTransition(from, to) then Err(Invalid)
    else if v.task.state != from then Err(Conflict)
    else if v.task.cancel && to != Cancelled then Err(Conflict)
    else if (to == PrOpen || to == Ready) && !PullRequestGate(v.attempt) then Err(Conflict)
    else
      match ApplyValidation(v.attempt.(state := to), change)
      case Err(e) => Err(e)
      case Ok(a) =>
        Ok(View(v.task.(state := to,
                        cancel := if to == Cancelled then false else v.task.cancel,
                        log := v.task.log + [AuditEvent(v.task.current, from, to)]), a))
  }

  function RequestCancellation(v: View): Result<View> {
    if Terminal(v.task.state) then Err(Invalid) else Ok(v.(task := v.task.(cancel := true)))
  }

  /** An audit event that changes no lifecycle state. */
  function RecordObservation(v: View): View {
    v.(task := v.task.(log := v.task.log + [AuditEvent(v.task.current, v.task.state, v.task.state)]))
  }

  function MarkLogsExhausted(a: AttemptRow): AttemptRow {
    a.(logsExhausted := true)
  }

  /** Replays may supply only the identical snapshot. */
  function SaveAttemptSnapshot(a: AttemptRow, m: Manifest): Result<AttemptRow> {
    if a.manifest.None? then Ok(a.(manifest := Some(m)))
    else if a.manifest.value == m then Ok(a)
    else Err(Conflict)
  }

  // ------------------------------------------------------- pull-request evidence

  datatype Branches = Branches(base: string, head: string)

  /** The branch columns of the attempt, completed from its manifest. */
  function BranchIdentity(a: AttemptRow): Result<Branches> {
    if a.baseBranch != "" && a.taskBranch != "" then Ok(Branches(a.baseBranch, a.taskBranch))
    else if a.manifest.None? then Err(Conflict)
    else
      var m := a.manifest.value;
      Ok(Branches(if a.baseBranch == "" then m.baseBranch else a.baseBranch,
                  if a.taskBranch == "" then m.taskBranch else a.taskBranch))
  }

  /** What the task's other attempts say about the pull request on these branches. */
  datatype Prior =
    | NoPrior              // no other open row
    | PriorNumber(n: nat)  // every other open row agrees on n > 0
    | PriorClash           // the other open rows disagree

  function RecordPullRequestCandidate(a: AttemptRow, prior: Prior, git: GitRow, pr: PrRow): Result<AttemptRow> {
    if git.state != Candidate || Blank(git.branch) || !FullGitObjectId(git.sha) then Err(Invalid)
    else if pr.state != Reported || pr.number == 0 || pr.url != "" || pr.title != "" || pr.head != git.branch || Blank(pr.base) then Err(Conflict)
    else
      match BranchIdentity(a)
      case Err(e) => Err(e)
      case Ok(id) =>
        if id.base == "" || id.head == "" || git.branch != id.head || pr.head != id.head || pr.base != id.base then Err(Conflict)
        else if PushedGit(a) then
          if a.pr.Some? && a.git.value.branch == git.branch && a.git.value.sha == git.sha && a.pr.value.state == Open
             && a.pr.value.number == pr.number && SameBranches(a.pr.value, pr)
          then Ok(a) else Err(Conflict)
        else if a.git.Some? && a.git.value.branch != git.branch then Err(Conflict)
        else
          match prior
          case PriorClash => Err(Conflict)
          case PriorNumber(n) =>
            // A follow-up may only repeat the copied, still open pull request.
            if OpenPr(a) && a.pr.value.number == n == pr.number && SameBranches(a.pr.value, pr)
            then Ok(a.(git := Some(git))) else Err(Conflict)
          case NoPrior =>
            if a.pr.None? then Ok(a.(git := Some(git), pr := Some(pr)))
            else if a.pr.value.state == Reported && a.pr.value.number == pr.number && a.pr.value.url == "" && a.pr.value.title == ""
                    && SameBranches(a.pr.value, pr)
            then Ok(a.(git := Some(git))) else Err(Conflict)
  }

  /** Promotes exactly the latest candidate. `metadataValid` is the verdict of the
      provider metadata validator on the URL and title. */
  function RecordVerifiedPullRequest(a: AttemptRow, git: GitRow, pr: PrRow, metadataValid: bool): Result<AttemptRow> {
    if git.state != Pushed || Blank(git.branch) || !FullGitObjectId(git.sha) then Err(Invalid)
    else if pr.state != Open || pr.number == 0 || Blank(pr.url) || Blank(pr.title) || pr.head != git.branch || Blank(pr.base) then Err(Conflict)
    else if !metadataValid then Err(Conflict)
    else
      match BranchIdentity(a)
      case Err(e) => Err(e)
      case Ok(id) =>
        if git.branch != id.head || pr.head != id.head || pr.base != id.base then Err(Conflict)
        else if PushedGit(a) then
          if a.pr.Some? && a.git.value == git && a.pr.value == pr then Ok(a) else Err(Conflict)
        else if a.git.None? || a.pr.None? || a.git.value.branch != git.branch || a.git.value.sha != git.sha
                || a.pr.value.number != pr.number || !SameBranches(a.pr.value, pr) then Err(Conflict)
        else Ok(a.(git := Some(git), pr := Some(pr)))
  }
}
