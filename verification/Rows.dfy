/** The durable rows. Tables keyed by attempt ID (Git results, pull requests,
    validation runs) are optional parts of their attempt's row; the audit log of
    a task is kept, in insertion order, with the task. */
module Rows {
  import opened Wrappers
  import opened TaskState

  type TaskId = nat
  type AttemptId = nat
  type ForgeEventId = nat
  type WorkerEventId = nat

  /** One row of `task_events`; an observation has equal states. */
  datatype AuditEvent = AuditEvent(attempt: AttemptId, from: State, to: State)

  datatype TaskRow = TaskRow(state: State, current: AttemptId, cancel: bool, log: seq<AuditEvent>)

  datatype RunState = RunRunning | RunSucceeded | RunFailed

  /** A command of an attempt; only a reported result has an exit code. */
  datatype ValidationRun = ValidationRun(
    name: string, state: RunState, summary: string, error: string, exitCode: Option<int>,
    startEvent: Option<WorkerEventId>, resultEvent: Option<WorkerEventId>)

  datatype ValidationState = NotValidated | ValidationSucceeded | ValidationFailed

  datatype GitState = Candidate | Pushed
  datatype GitRow = GitRow(state: GitState, branch: string, sha: string)

  datatype PrState = Reported | Open
  datatype PrRow = PrRow(state: PrState, number: nat, url: string, title: string, head: string, base: string)

  /** The immutable worker inputs of an attempt. `digest` stands for everything
      in the snapshot besides the fields the controller reads back. */
  datatype Manifest = Manifest(baseBranch: string, taskBranch: string, existingPr: nat, digest: nat)

  datatype AttemptRow = AttemptRow(
    task: TaskId, number: nat, state: State, prompt: string, baseBranch: string, taskBranch: string,
    manifest: Option<Manifest>, logsExhausted: bool, validation: ValidationState,
    runs: seq<ValidationRun>, git: Option<GitRow>, pr: Option<PrRow>)

  /** A task together with its current attempt: all that one worker event can touch. */
  datatype View = View(task: TaskRow, attempt: AttemptRow)

  predicate Blank(s: string) {
    forall c | c in s :: c in {' ', '\t', '\n', '\r'}
  }

  /** A complete lowercase SHA-1 or SHA-256 object name. */
  predicate FullGitObjectId(sha: string) {
    && (|sha| == 40 || |sha| == 64)
    && forall c | c in sha :: '0' <= c <= '9' || 'a' <= c <= 'f'
  }

  predicate PushedGit(a: AttemptRow) {
    a.git.Some? && a.git.value.state == Pushed
  }

  predicate OpenPr(a: AttemptRow) {
    a.pr.Some? && a.pr.value.state == Open
  }

  /** The durable evidence a task needs before PR_OPEN and before READY. */
  predicate PullRequestGate(a: AttemptRow) {
    && PushedGit(a) && OpenPr(a)
    && var git, pr := a.git.value, a.pr.value;
    && git.branch != "" && git.sha != ""
    && pr.head == git.branch && pr.number > 0 && pr.url != ""
  }

  predicate SameBranches(p: PrRow, q: PrRow) {
    p.head == q.head && p.base == q.base
  }
}
