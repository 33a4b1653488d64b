/** What worker events do to the evidence of an attempt: which provider answers let a
    pull_request_ready event push a candidate, said on the answers themselves, and what
    becomes of every other receipt and report. */
module Receipts {
  import opened Wrappers
  import opened TaskState
  import opened Rows
  import opened Transactions
  import opened WorkerEvents
  import opened Redelivery

  // ------------------------------------------------------------ the provider's answers

  /** An answer that is the reported pull request in every respect but, perhaps, its head. */
  predicate RightPullRequest(p: Poll, env: Environment, m: Manifest, number: nat) {
    && p.Live? && p.isOpen && p.sameRepository && p.number == number
    && p.head == m.taskBranch && p.base == m.baseBranch
    && env.validMetadata(p.url, p.title) && env.validUrl(p.url, number)
  }

  /** Its head has not arrived at the reported commit. */
  predicate Settling(p: Poll, env: Environment, m: Manifest, number: nat, sha: string) {
    RightPullRequest(p, env, m, number) && !SameCommit(p.sha, sha)
  }

  predicate Confirming(p: Poll, env: Environment, m: Manifest, number: nat, sha: string) {
    RightPullRequest(p, env, m, number) && SameCommit(p.sha, sha)
  }

  /** How often the provider is asked about one receipt. */
  const ANSWERS_MAX := 5

  /** The first `k` answers differ by their head alone. */
  predicate SettlingUntil(polls: seq<Poll>, k: nat, env: Environment, m: Manifest, number: nat, sha: string) {
    k <= |polls| && k <= ANSWERS_MAX && forall j | 0 <= j < k :: Settling(polls[j], env, m, number, sha)
  }

  predicate ConfirmedAt(polls: seq<Poll>, k: nat, env: Environment, m: Manifest, number: nat, sha: string) {
    k < ANSWERS_MAX && k < |polls| && SettlingUntil(polls, k, env, m, number, sha) && Confirming(polls[k], env, m, number, sha)
  }

  /** An answer after which nothing is asked again and the receipt is refused for good. */
  predicate Refusing(p: Poll, env: Environment, m: Manifest, number: nat) {
    p.PermanentError? || (p.Live? && !RightPullRequest(p, env, m, number))
  }

  /** Refused at the first answer that is neither settling nor confirming, or because the
      head has not settled after five answers. */
  predicate RefusedAt(polls: seq<Poll>, k: nat, env: Environment, m: Manifest, number: nat, sha: string) {
    && SettlingUntil(polls, k, env, m, number, sha)
    && (k == ANSWERS_MAX || (k < |polls| && Refusing(polls[k], env, m, number)))
  }

  /** The answers stop, or a call fails, before the matter is decided. */
  predicate UndecidedAt(polls: seq<Poll>, k: nat, env: Environment, m: Manifest, number: nat, sha: string) {
    k < ANSWERS_MAX && SettlingUntil(polls, k, env, m, number, sha) && (k == |polls| || polls[k].TransientError?)
  }

  /** A complete object name confirms only itself; a shorter one is an abbreviation. */
  lemma CommitMatchesItself(p: string, d: string)
    requires FullGitObjectId(p) && FullGitObjectId(d) && |p| == |d|
    ensures SameCommit(p, d) <==> p == d
  {
    assert p <= d && |p| == |d| ==> p == d;
    assert forall c | c in p :: '0' <= c <= '9' || 'a' <= c <= 'f';
  }

  /** Settling answers are skipped one by one. */
  lemma {:induction false} InspectSkips(polls: seq<Poll>, k: nat, env: Environment, m: Manifest, number: nat, sha: string)
    requires k < ANSWERS_MAX && SettlingUntil(polls, k, env, m, number, sha)
    ensures Inspect(polls, 0, env, m, number, sha) == Inspect(polls[k..], k, env, m, number, sha)
  {
    hide SameCommit;
    if k == 0 {
      assert polls[0..] == polls;
    } else {
      InspectSkips(polls, k - 1, env, m, number, sha);
      assert Settling(polls[k - 1], env, m, number, sha);
      assert polls[k - 1..][0] == polls[k - 1] && polls[k - 1..][1..] == polls[k..];
    }
  }

  /** The polling loop, by the first answer that is not settling. */
  lemma InspectDecides(polls: seq<Poll>, k: nat, env: Environment, m: Manifest, number: nat, sha: string)
    ensures ConfirmedAt(polls, k, env, m, number, sha) ==> Inspect(polls, 0, env, m, number, sha) == Verified(polls[k])
    ensures RefusedAt(polls, k, env, m, number, sha) ==> Inspect(polls, 0, env, m, number, sha) == Permanent
    ensures UndecidedAt(polls, k, env, m, number, sha) ==> Inspect(polls, 0, env, m, number, sha) == Transient
  {
    hide SameCommit;
    if SettlingUntil(polls, k, env, m, number, sha) {
      if k < ANSWERS_MAX {
        InspectSkips(polls, k, env, m, number, sha);
        assert k < |polls| ==> polls[k..][0] == polls[k];
      } else {
        InspectSkips(polls, k - 1, env, m, number, sha);
        assert polls[k - 1..][0] == polls[k - 1] && Settling(polls[k - 1], env, m, number, sha);
      }
    }
  }

  /** One of the three always happens, at one answer. */
  lemma {:induction false} AnswersDecide(polls: seq<Poll>, k: nat, env: Environment, m: Manifest, number: nat, sha: string) returns (at: nat)
    requires SettlingUntil(polls, k, env, m, number, sha)
    ensures ConfirmedAt(polls, at, env, m, number, sha) || RefusedAt(polls, at, env, m, number, sha) || UndecidedAt(polls, at, env, m, number, sha)
    decreases ANSWERS_MAX - k
  {
    hide SameCommit, RightPullRequest;
    if k < ANSWERS_MAX && k < |polls| && Settling(polls[k], env, m, number, sha) {
      at := AnswersDecide(polls, k + 1, env, m, number, sha);
    } else {
      at := k;
    }
  }

  // -------------------------------------------------------------- the receipt itself

  /** The receipt repeats the durable candidate of a validated attempt whose forge target
      is known. */
  predicate ReceiptFits(v: View, env: Environment, number: nat, branch: string, sha: string) {
    && v.attempt.manifest.Some? && env.targetKnown
    && var m := v.attempt.manifest.value;
    && number > 0 && FullGitObjectId(sha) && branch != "" && branch == m.taskBranch
    && v.attempt.validation == ValidationSucceeded
    && v.attempt.git == Some(GitRow(Candidate, branch, sha))
    && v.attempt.pr.Some? && v.attempt.pr.value.number == number
    && v.attempt.pr.value.head == branch && v.attempt.pr.value.base == m.baseBranch
    && (m.existingPr == 0 || number == m.existingPr)
  }

  /** The rows after a verified promotion, before the task moves on. */
  function Promoted(v: View, p: Poll, branch: string, sha: string): View
    requires p.Live?
  {
    v.(attempt := v.attempt.(git := Some(GitRow(Pushed, branch, sha)), pr := Some(PrRow(Open, p.number, p.url, p.title, p.head, p.base))))
  }

  /** `failPullRequestReceipt`: FAILED, with every row of the attempt as it was. */
  lemma FailsUnlimited(v: View)
    requires !Terminal(v.task.state) && !v.task.cancel
    ensures FailReceipt(v, UNLIMITED) == Rejected(Moved(v, Failed), Conflict)
  {
  }

  lemma ReadyIsHandled(v: View, number: nat, branch: string, sha: string, id: Option<WorkerEventId>, env: Environment, budget: int)
    ensures Handle(v, PullRequestReady(number, branch, sha), id, env, budget)
         == if Terminal(v.task.state) then Delivered(v) else if v.task.cancel then Commit(v, budget, Ok(RecordObservation(v)))
            else HandleReady(v, env, number, branch, sha, budget)
  {
    hide HandleReady;
  }

  /** A receipt that does not fit is refused without asking the provider. */
  lemma UnfitReceiptFails(v: View, env: Environment, number: nat, branch: string, sha: string)
    requires v.task.state == Validating && !v.task.cancel && !PushedGit(v.attempt) && !ReceiptFits(v, env, number, branch, sha)
    ensures HandleReady(v, env, number, branch, sha, UNLIMITED) == Rejected(Moved(v, Failed), Conflict)
  {
    hide Inspect, FailReceipt, Resume, RecordVerifiedPullRequest, FullGitObjectId;
    FailsUnlimited(v);
  }

  /** The promotion and what follows it. */
  function Promotion(v: View, live: Poll, env: Environment, branch: string, sha: string, budget: int): Delivery
    requires live.Live?
  {
    var pr := PrRow(Open, live.number, live.url, live.title, live.head, live.base);
    match RecordVerifiedPullRequest(v.attempt, GitRow(Pushed, branch, sha), pr, env.validMetadata(live.url, live.title))
    case Err(Conflict) => FailReceipt(v, budget)
    case Err(e) => Rejected(v, e)
    case Ok(a) => if budget == 0 then Crashed(v) else Resume(v.(attempt := a), budget - 1)
  }

  lemma FitReceiptAsks(v: View, env: Environment, number: nat, branch: string, sha: string, budget: int)
    requires AtOrAfter(v.task.state, Validating) && ReceiptFits(v, env, number, branch, sha)
    ensures HandleReady(v, env, number, branch, sha, budget) ==
            match Inspect(env.polls, 0, env, v.attempt.manifest.value, number, sha)
            case Transient => Rejected(v, Invalid)
            case Permanent => FailReceipt(v, budget)
            case Verified(live) => Promotion(v, live, env, branch, sha, budget)
  {
    hide Inspect, FailReceipt, Resume, RecordVerifiedPullRequest, FullGitObjectId;
  }

  /** The store accepts the promotion: its columns are filled in and the branches are the
      attempt's own. */
  predicate Storable(v: View, p: Poll)
    requires p.Live?
  {
    && !Blank(p.url) && !Blank(p.title) && !Blank(p.head) && !Blank(p.base)
    && BranchIdentity(v.attempt) == Ok(Branches(p.base, p.head))
  }

  lemma PromotionIs(v: View, p: Poll, env: Environment, number: nat, branch: string, sha: string, budget: int)
    requires ReceiptFits(v, env, number, branch, sha) && Confirming(p, env, v.attempt.manifest.value, number, sha)
    ensures var d := Promotion(v, p, env, branch, sha, budget);
            && (Storable(v, p) ==> d == if budget == 0 then Crashed(v) else Resume(Promoted(v, p, branch, sha), budget - 1))
            && (d == Rejected(v, Invalid) || d == FailReceipt(v, budget) || d == Crashed(v) || d == Resume(Promoted(v, p, branch, sha), budget - 1))
  {
    hide FailReceipt, Resume, FullGitObjectId, SameCommit;
  }

  lemma {:induction false} ResumeLoopReaches(v: View, b: int)
    requires b < 0 && 6 <= Index(v.task.state) <= 10 && !v.task.cancel && v.attempt.validation == ValidationSucceeded
    requires PullRequestGate(v.attempt)
    ensures var d := ResumeLoop(v, b);
            d.Delivered? && d.v.task.state == PrOpen && d.v.attempt == if v.task.state == PrOpen then v.attempt else v.attempt.(state := PrOpen)
    decreases 10 - Index(v.task.state)
  {
    hide CommitTransition;
    if v.task.state != PrOpen {
      var next := NextState(v.task.state);
      StepOutcome(v, b, next);
      ResumeLoopReaches(Moved(v, next), b - 1);
    }
  }

  lemma ResumeReaches(v: View, b: int)
    requires b < 0 && v.task.state == Validating && !v.task.cancel && v.attempt.validation == ValidationSucceeded
    requires ResumeEvidence(v.attempt)
    ensures var d := Resume(v, b); d.Delivered? && d.v.task.state == PrOpen && d.v.attempt == v.attempt.(state := PrOpen)
  {
    ResumeLoopReaches(v, b);
  }

  lemma ResumeKeepsEvidence(v: View, b: int)
    requires AtOrAfter(v.task.state, Validating)
    ensures SameEvidence(v, Resume(v, b).v)
  {
    if !v.task.cancel {
      ResumeLoopFrame(v, b);
    }
  }

  lemma FailKeepsGit(v: View, b: int)
    ensures FailReceipt(v, b).v.attempt.git == v.attempt.git && FailReceipt(v, b).v.attempt.pr == v.attempt.pr
  {
  }

  lemma FitsHasManifest(v: View, env: Environment, number: nat, branch: string, sha: string)
    requires ReceiptFits(v, env, number, branch, sha)
    ensures v.attempt.manifest.Some?
  {
  }

  lemma PromotedResumes(v: View, p: Poll, env: Environment, number: nat, branch: string, sha: string)
    requires v.task.state == Validating && !v.task.cancel && ReceiptFits(v, env, number, branch, sha)
    requires Confirming(p, env, v.attempt.manifest.value, number, sha) && Storable(v, p)
    ensures var d, w := Resume(Promoted(v, p, branch, sha), UNLIMITED - 1), Promoted(v, p, branch, sha);
            d.Delivered? && d.v.task.state == PrOpen && d.v.attempt == w.attempt.(state := PrOpen)
  {
    hide Resume, BranchIdentity, SameCommit;
    ResumeReaches(Promoted(v, p, branch, sha), UNLIMITED - 1);
  }

  // ------------------------------------------------------------------- main results

  /** What becomes of a receipt for an unpushed candidate in VALIDATING. A receipt that does
      not repeat the candidate fails the task. Otherwise the first answer that is not
      settling decides: no answer leaves everything as it is, a refusing one fails the task
      with the rows unchanged, and a confirming one brings it to PR_OPEN with exactly the
      confirmed pull request. */
  lemma ReceiptOutcome(v: View, env: Environment, number: nat, branch: string, sha: string, id: Option<WorkerEventId>, k: nat)
    requires v.task.state == Validating && !v.task.cancel && !PushedGit(v.attempt)
    ensures var d := Handle(v, PullRequestReady(number, branch, sha), id, env, UNLIMITED);
            && (!ReceiptFits(v, env, number, branch, sha) ==> d == Rejected(Moved(v, Failed), Conflict))
            && (ReceiptFits(v, env, number, branch, sha) ==>
                  var m := v.attempt.manifest.value;
                  && (UndecidedAt(env.polls, k, env, m, number, sha) ==> d == Rejected(v, Invalid))
                  && (RefusedAt(env.polls, k, env, m, number, sha) ==> d == Rejected(Moved(v, Failed), Conflict))
                  && (ConfirmedAt(env.polls, k, env, m, number, sha) && Storable(v, env.polls[k]) ==>
                        && d.Delivered? && d.v.task.state == PrOpen
                        && d.v.attempt == Promoted(v, env.polls[k], branch, sha).attempt.(state := PrOpen)))
  {
    ReadyIsHandled(v, number, branch, sha, id, env, UNLIMITED);
    hide Handle, HandleReady, Inspect, FailReceipt, Resume, ReceiptFits, Promotion, Storable, UndecidedAt, RefusedAt, ConfirmedAt, Moved;
    if ReceiptFits(v, env, number, branch, sha) {
      FitsHasManifest(v, env, number, branch, sha);
      var m := v.attempt.manifest.value;
      FitReceiptAsks(v, env, number, branch, sha, UNLIMITED);
      InspectDecides(env.polls, k, env, m, number, sha);
      FailsUnlimited(v);
      if ConfirmedAt(env.polls, k, env, m, number, sha) {
        ConfirmedIsLive(env.polls, k, env, m, number, sha);
        if Storable(v, env.polls[k]) {
          PromotionIs(v, env.polls[k], env, number, branch, sha, UNLIMITED);
          PromotedResumes(v, env.polls[k], env, number, branch, sha);
        }
      }
    } else {
      UnfitReceiptFails(v, env, number, branch, sha);
    }
  }

  /** A first answer that is live but closed, or another pull request, fails the task and
      leaves its rows as they were. */
  lemma WrongPullRequestFails(v: View, env: Environment, number: nat, branch: string, sha: string, id: Option<WorkerEventId>)
    requires v.task.state == Validating && !v.task.cancel && !PushedGit(v.attempt) && v.attempt.manifest.Some?
    requires env.polls != [] && env.polls[0].Live?
    requires var p, m := env.polls[0], v.attempt.manifest.value;
             !p.isOpen || p.number != number || p.head != m.taskBranch || p.base != m.baseBranch || !p.sameRepository
    ensures Handle(v, PullRequestReady(number, branch, sha), id, env, UNLIMITED) == Rejected(Moved(v, Failed), Conflict)
  {
    hide Handle;
    ReceiptOutcome(v, env, number, branch, sha, id, 0);
  }

  /** A candidate is never pushed unless one of the first five answers confirmed it, after
      answers that differed by their head alone - wherever the handling stops. */
  lemma PushNeedsConfirmation(v: View, env: Environment, number: nat, branch: string, sha: string, id: Option<WorkerEventId>, budget: int)
    requires !PushedGit(v.attempt) && PushedGit(Handle(v, PullRequestReady(number, branch, sha), id, env, budget).v.attempt)
    ensures ReceiptFits(v, env, number, branch, sha) && !v.task.cancel && !Terminal(v.task.state)
    ensures exists k | 0 <= k < |env.polls| ::
              && ConfirmedAt(env.polls, k, env, v.attempt.manifest.value, number, sha)
              && var now := Handle(v, PullRequestReady(number, branch, sha), id, env, budget).v.attempt;
                 now == Promoted(v, env.polls[k], branch, sha).attempt.(state := now.state)
  {
    ReadyIsHandled(v, number, branch, sha, id, env, budget);
    FailKeepsGit(v, budget);
    hide Handle, Inspect, FailReceipt, Resume, Promotion, FullGitObjectId, BranchIdentity, SameCommit;
    UnfitNeverPushes(v, env, number, branch, sha, budget);
    var m := v.attempt.manifest.value;
    var k := AnswersDecide(env.polls, 0, env, m, number, sha);
    hide HandleReady;
    FitReceiptAsks(v, env, number, branch, sha, budget);
    InspectDecides(env.polls, k, env, m, number, sha);
    hide ConfirmedAt, RefusedAt, UndecidedAt, ReceiptFits;
    assert ConfirmedAt(env.polls, k, env, m, number, sha);
    ConfirmedIsLive(env.polls, k, env, m, number, sha);
    PromotionIs(v, env.polls[k], env, number, branch, sha, budget);
    ResumeKeepsEvidence(Promoted(v, env.polls[k], branch, sha), budget - 1);
  }

  lemma ConfirmedIsLive(polls: seq<Poll>, k: nat, env: Environment, m: Manifest, number: nat, sha: string)
    requires ConfirmedAt(polls, k, env, m, number, sha)
    ensures k < |polls| && polls[k].Live? && Confirming(polls[k], env, m, number, sha)
  {
  }

  lemma UnfitNeverPushes(v: View, env: Environment, number: nat, branch: string, sha: string, budget: int)
    requires !PushedGit(v.attempt) && PushedGit(HandleReady(v, env, number, branch, sha, budget).v.attempt)
    ensures ReceiptFits(v, env, number, branch, sha) && AtOrAfter(v.task.state, Validating)
  {
    FailKeepsGit(v, budget);
    hide Inspect, FailReceipt, Resume, RecordVerifiedPullRequest, FullGitObjectId;
  }

  // ------------------------------------------------------------------ other reports

  /** A report names the task branch, a complete commit and, in a follow-up, the pull
      request that is followed up. */
  predicate ReportFits(m: Manifest, number: nat, branch: string, sha: string) {
    number > 0 && branch != "" && branch == m.taskBranch && FullGitObjectId(sha) && (m.existingPr == 0 || number == m.existingPr)
  }

  /** What becomes of a pull_request_published report while the agent works: a fitting one
      that the evidence admits replaces the candidate and nothing else; any other fails the
      task with the rows unchanged. */
  lemma ReportOutcome(v: View, env: Environment, number: nat, branch: string, sha: string, id: Option<WorkerEventId>)
    requires (v.task.state == AgentRunning || v.task.state == Validating) && !v.task.cancel && v.attempt.manifest.Some? && !Blank(branch)
    ensures var d, m := Handle(v, PullRequestPublished(number, branch, sha), id, env, UNLIMITED), v.attempt.manifest.value;
            var pr := PrRow(Reported, number, "", "", branch, m.baseBranch);
            if ReportFits(m, number, branch, sha) && RecordPullRequestCandidate(v.attempt, env.prior, GitRow(Candidate, branch, sha), pr).Ok?
            then d == Delivered(v.(attempt := RecordPullRequestCandidate(v.attempt, env.prior, GitRow(Candidate, branch, sha), pr).value))
            else d == Rejected(Moved(v, Failed), Conflict)
  {
    FailsUnlimited(v);
    if FullGitObjectId(sha) {
      CandidateRefusal(v.attempt, env.prior, number, branch, sha, v.attempt.manifest.value.baseBranch);
    }
    hide FailReceipt, RecordPullRequestCandidate, FullGitObjectId, Blank;
  }

  lemma CandidateRefusal(a: AttemptRow, prior: Prior, number: nat, branch: string, sha: string, base: string)
    requires !Blank(branch) && FullGitObjectId(sha)
    ensures var tx := RecordPullRequestCandidate(a, prior, GitRow(Candidate, branch, sha), PrRow(Reported, number, "", "", branch, base));
            tx.Err? ==> tx.error == Conflict
  {
  }

  /** What an admitted candidate means: either the pushed result is repeated, or nothing is
      pushed yet, the branches are the attempt's own, the number is the one already reported
      and the one of every other open pull request on these branches, and the commit is
      replaced. */
  lemma CandidateIsExact(a: AttemptRow, prior: Prior, git: GitRow, pr: PrRow)
    requires RecordPullRequestCandidate(a, prior, git, pr).Ok?
    ensures var b := RecordPullRequestCandidate(a, prior, git, pr).value;
            && git.state == Candidate && FullGitObjectId(git.sha) && pr.state == Reported && pr.number > 0
            && BranchIdentity(a) == Ok(Branches(pr.base, pr.head)) && git.branch == pr.head
            && (PushedGit(a) ==> b == a && a.git.value.sha == git.sha && OpenPr(a) && a.pr.value.number == pr.number && SameBranches(a.pr.value, pr))
            && (!PushedGit(a) ==>
                  && b == a.(git := Some(git), pr := Some(if a.pr.Some? then a.pr.value else pr))
                  && (a.git.Some? ==> a.git.value.branch == git.branch)
                  && (a.pr.Some? ==> a.pr.value.number == pr.number && SameBranches(a.pr.value, pr))
                  && !prior.PriorClash? && (prior.PriorNumber? ==> prior.n == pr.number && OpenPr(a)))
  {
    hide FullGitObjectId, Blank;
  }

  /** The first report on a fresh branch and a new commit of the same report are admitted. */
  lemma CandidateIsAdmitted(a: AttemptRow, git: GitRow, pr: PrRow)
    requires git.state == Candidate && !Blank(git.branch) && FullGitObjectId(git.sha) && !PushedGit(a)
    requires pr == PrRow(Reported, pr.number, "", "", git.branch, pr.base) && pr.number > 0 && !Blank(pr.base)
    requires BranchIdentity(a) == Ok(Branches(pr.base, git.branch)) && pr.base != "" && git.branch != ""
    requires (a.git.None? && a.pr.None?) || (a.git.Some? && a.git.value.branch == git.branch && a.pr == Some(pr))
    ensures RecordPullRequestCandidate(a, NoPrior, git, pr) == Ok(a.(git := Some(git), pr := Some(pr)))
  {
    hide FullGitObjectId, Blank, BranchIdentity;
  }

  /** What a verified promotion means: the pushed result is repeated exactly, or exactly the
      latest candidate is promoted, with its commit, number and branches. */
  lemma PromotionIsExact(a: AttemptRow, git: GitRow, pr: PrRow, metadataValid: bool)
    requires RecordVerifiedPullRequest(a, git, pr, metadataValid).Ok?
    ensures var b := RecordVerifiedPullRequest(a, git, pr, metadataValid).value;
            && metadataValid && git.state == Pushed && FullGitObjectId(git.sha) && pr.state == Open && pr.number > 0
            && BranchIdentity(a).Ok? && git.branch == pr.head == BranchIdentity(a).value.head && pr.base == BranchIdentity(a).value.base
            && a.git.Some? && a.pr.Some? && b == a.(git := Some(git), pr := Some(pr))
            && a.git.value.sha == git.sha && a.git.value.branch == git.branch
            && a.pr.value.number == pr.number && SameBranches(a.pr.value, pr)
            && (PushedGit(a) ==> b == a)
  {
    hide FullGitObjectId, Blank;
  }

  /** A legacy branch_pushed event leaves only an attempt alone that has published exactly
      this commit; any other accepted one fails the task. */
  lemma LegacyPushOutcome(v: View, env: Environment, branch: string, sha: string, id: Option<WorkerEventId>)
    requires !Terminal(v.task.state) && !v.task.cancel
    ensures var d := Handle(v, BranchPushed(branch, sha), id, env, UNLIMITED);
            && (d.Delivered? && d.v != Moved(v, Failed) ==>
                  d.v == v && AtOrAfter(v.task.state, PrOpen) && OpenPr(v.attempt) && v.attempt.git == Some(GitRow(Pushed, branch, sha)))
            && (d.Delivered? <==> v.attempt.manifest.Some? && branch == v.attempt.manifest.value.taskBranch != "" && |branch| <= 1024 && FullGitObjectId(sha))
            && (!d.Delivered? ==> d == Rejected(v, Invalid))
  {
    StepOutcome(v, UNLIMITED, Failed);
    hide CommitTransition, FullGitObjectId, Moved;
  }

  /** Once cancellation is requested an event is only observed, and afterwards ignored. */
  lemma CancelledTaskIgnoresEvents(v: View, event: Event, id: Option<WorkerEventId>, env: Environment)
    requires v.task.cancel || Terminal(v.task.state)
    ensures var d := Handle(v, event, id, env, UNLIMITED);
            && d.Delivered? && d.v == v.(task := v.task.(log := d.v.task.log))
            && (d.v.task.log == v.task.log || d.v.task.log == v.task.log + [AuditEvent(v.task.current, v.task.state, v.task.state)])
  {
  }

  /** A failure report ends the task if it says something of at most 32 KiB, and is refused
      without a change otherwise. */
  lemma FailureReportOutcome(v: View, message: string, id: Option<WorkerEventId>, env: Environment)
    requires !Terminal(v.task.state) && !v.task.cancel
    ensures Handle(v, WorkerFailed(message), id, env, UNLIMITED)
         == if !Blank(message) && |message| <= 32_768 then Delivered(Moved(v, Failed)) else Rejected(v, Invalid)
  {
    StepOutcome(v, UNLIMITED, Failed);
    hide CommitTransition, Moved, Blank;
  }

  /** Outside VALIDATING no validation event changes anything but the start of the first
      command: it is ignored once the candidate is being published, and refused before. */
  lemma ValidationOutOfOrder(v: View, event: Event, id: Option<WorkerEventId>, env: Environment)
    requires !Terminal(v.task.state) && !v.task.cancel && v.task.state != Validating
    ensures var d := Handle(v, event, id, env, UNLIMITED);
            && (event.FinishedValidation? || event.FailedValidation? ==> d == Rejected(v, Conflict))
            && (event.SucceededValidation? || (event.StartedValidation? && v.task.state != AgentRunning) ==>
                  d == if AtOrAfter(v.task.state, Committing) then Delivered(v) else Rejected(v, Conflict))
            && (event.PullRequestPublished? && v.task.state != AgentRunning ==> d == Rejected(v, Conflict))
            && (event.Unsupported? ==> d == Rejected(v, Invalid))
  {
    hide HandleReady, HandleBranchPushed, HandleAgentStarted, Blank, CommitTransition, Transition;
  }
}
