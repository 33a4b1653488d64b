/** What a worker run does, said on its rounds: it repairs as long as a command fails and
    a fix attempt is left, and the first round that does otherwise decides the ending. */
module WorkerRounds {
  import opened Rows
  import opened WorkerEvents
  import opened WorkerTrace

  predicate ValidRounds(plan: Plan, rounds: seq<Round>) {
    ValidPlan(plan) && plan.maxFixAttempts < |rounds| && forall r | r in rounds :: ValidRound(plan, r)
  }

  /** The pull request round `i` has to report: the one followed up, if any, and after the
      first round the one already reported. 0 leaves it open. */
  function Asked(plan: Plan, rounds: seq<Round>, i: nat): nat
    requires i <= |rounds|
  {
    if i == 0 then plan.existingPr
    else if rounds[i - 1].invocation.ReportedPullRequest? then rounds[i - 1].invocation.number else 0
  }

  predicate ReportsExpected(plan: Plan, rounds: seq<Round>, i: nat)
    requires i < |rounds|
  {
    && rounds[i].invocation.ReportedPullRequest?
    && (Asked(plan, rounds, i) > 0 ==> rounds[i].invocation.number == Asked(plan, rounds, i))
  }

  predicate Publishes(plan: Plan, rounds: seq<Round>, i: nat)
    requires i < |rounds|
  {
    ReportsExpected(plan, rounds, i) && rounds[i].publication.PublishedCommit?
  }

  predicate AllPass(r: Round) {
    forall c | 0 <= c < |r.outcomes| :: Passed(r.outcomes[c])
  }

  /** The round is in order but for a command that does not pass. */
  predicate NeedsRepair(plan: Plan, rounds: seq<Round>, i: nat)
    requires i < |rounds|
  {
    Publishes(plan, rounds, i) && !AllPass(rounds[i])
  }

  /** `c` is the last command of the round that does not pass. */
  predicate LastFailing(r: Round, c: nat) {
    c < |r.outcomes| && !Passed(r.outcomes[c]) && forall j | c < j < |r.outcomes| :: Passed(r.outcomes[j])
  }

  /** The events of one published round up to its verdict. */
  function RoundEvents(plan: Plan, r: Round): seq<Event>
    requires ValidRound(plan, r) && r.invocation.ReportedPullRequest? && r.publication.PublishedCommit?
  {
    [AgentStarted, PullRequestPublished(r.invocation.number, plan.branch, r.publication.sha)] + CommandEvents(plan.commands, r.outcomes)
  }

  /** The events of rounds `i` to `k - 1`, all published. */
  function Repairs(plan: Plan, rounds: seq<Round>, i: nat, k: nat): seq<Event>
    requires ValidRounds(plan, rounds) && i <= k <= |rounds| && forall j | i <= j < k :: NeedsRepair(plan, rounds, j)
    decreases k - i
  {
    if i == k then []
    else
      assert NeedsRepair(plan, rounds, i) && rounds[i] in rounds;
      RoundEvents(plan, rounds[i]) + Repairs(plan, rounds, i + 1, k)
  }

  /** How often the agent is started. */
  function Starts(trace: seq<Event>): nat {
    if trace == [] then 0 else Starts(trace[..|trace| - 1]) + if trace[|trace| - 1].AgentStarted? then 1 else 0
  }

  lemma {:induction false} StartsAppend(a: seq<Event>, b: seq<Event>)
    ensures Starts(a + b) == Starts(a) + Starts(b)
  {
    if b == [] {
      assert a + b == a;
    } else {
      StartsAppend(a, b[..|b| - 1]);
      assert (a + b)[..|a + b| - 1] == a + b[..|b| - 1];
    }
  }

  lemma {:induction false} CommandsStartNoAgent(commands: seq<string>, outcomes: seq<Outcome>)
    requires |commands| == |outcomes|
    ensures Starts(CommandEvents(commands, outcomes)) == 0
  {
    if commands != [] {
      var head := [StartedValidation(commands[0], ""), FinishedValidation(commands[0], "", outcomes[0].exit)];
      CommandsStartNoAgent(commands[1..], outcomes[1..]);
      StartsAppend(head, CommandEvents(commands[1..], outcomes[1..]));
      assert [head[0]][..0] == [] && head[..1] == [head[0]];
      assert Starts([head[0]]) == 0 && Starts(head) == 0;
    }
  }

  lemma RoundStartsOnce(plan: Plan, r: Round)
    requires ValidRound(plan, r) && r.invocation.ReportedPullRequest? && r.publication.PublishedCommit?
    ensures Starts(RoundEvents(plan, r)) == 1
  {
    var head := [AgentStarted, PullRequestPublished(r.invocation.number, plan.branch, r.publication.sha)];
    CommandsStartNoAgent(plan.commands, r.outcomes);
    StartsAppend(head, CommandEvents(plan.commands, r.outcomes));
    assert head[..1] == [AgentStarted] && [AgentStarted][..0] == [];
    assert Starts([AgentStarted]) == 1 && Starts(head) == 1;
  }

  lemma {:induction false} RepairsStartEach(plan: Plan, rounds: seq<Round>, i: nat, k: nat)
    requires ValidRounds(plan, rounds) && i <= k <= |rounds| && forall j | i <= j < k :: NeedsRepair(plan, rounds, j)
    ensures Starts(Repairs(plan, rounds, i, k)) == k - i
    decreases k - i
  {
    if i < k {
      assert NeedsRepair(plan, rounds, i) && rounds[i] in rounds;
      RoundStartsOnce(plan, rounds[i]);
      RepairsStartEach(plan, rounds, i + 1, k);
      StartsAppend(RoundEvents(plan, rounds[i]), Repairs(plan, rounds, i + 1, k));
    }
  }

  lemma RunRepairs(plan: Plan, rounds: seq<Round>, ready: bool, i: nat)
    requires ValidRounds(plan, rounds) && i < plan.maxFixAttempts && NeedsRepair(plan, rounds, i) && rounds[i] in rounds
    ensures var rest := RunFrom(plan, rounds, i + 1, Asked(plan, rounds, i + 1), ready);
            RunFrom(plan, rounds, i, Asked(plan, rounds, i), ready) == Run(RoundEvents(plan, rounds[i]) + rest.trace, rest.ending)
  {
    hide CommandEvents;
    assert LastFailure(rounds[i].outcomes) >= 0;
  }

  /** While a round needs repair and attempts are left, the run goes on to the next. */
  lemma {:induction false} RunReaches(plan: Plan, rounds: seq<Round>, ready: bool, i: nat, k: nat)
    requires ValidRounds(plan, rounds) && i <= k <= plan.maxFixAttempts && forall j | i <= j < k :: NeedsRepair(plan, rounds, j)
    ensures var from, at := RunFrom(plan, rounds, i, Asked(plan, rounds, i), ready), RunFrom(plan, rounds, k, Asked(plan, rounds, k), ready);
            from.trace == Repairs(plan, rounds, i, k) + at.trace && from.ending == at.ending
    decreases k - i
  {
    hide RunFrom, RoundEvents, Asked;
    if i < k {
      assert NeedsRepair(plan, rounds, i) && rounds[i] in rounds;
      RunRepairs(plan, rounds, ready, i);
      RunReaches(plan, rounds, ready, i + 1, k);
    }
  }

  /** The last command that does not pass is what the scan remembers. */
  lemma LastFailingIs(r: Round, c: nat)
    requires LastFailing(r, c)
    ensures LastFailure(r.outcomes) == c
  {
  }

  /** The run of a worker, by the first round `k` that does not just need repair, or the
      last one that may be tried: all rounds before it are in the trace, and it ends
      - with worker_failed if the agent fails or reports another pull request,
      - with nothing more if the published branch does not check out,
      - with validation_succeeded and, if the branch is still as published,
        pull_request_ready for this round's commit if every command passes,
      - with validation_failed for the last command that does not pass otherwise. */
  lemma RoundsDecide(plan: Plan, rounds: seq<Round>, ready: bool, k: nat, c: nat)
    requires ValidRounds(plan, rounds) && k <= plan.maxFixAttempts && forall j | 0 <= j < k :: NeedsRepair(plan, rounds, j)
    ensures var run, r, before := WorkerRun(plan, rounds, ready), rounds[k], Repairs(plan, rounds, 0, k);
            && (r.invocation.InvocationFailed? ==> run == Run(before + [AgentStarted, WorkerFailed(r.invocation.message)], AgentFailed))
            && (r.invocation.ReportedPullRequest? && !ReportsExpected(plan, rounds, k) ==>
                  run == Run(before + [AgentStarted, WorkerFailed(MISMATCH_MESSAGE)], AgentFailed))
            && (ReportsExpected(plan, rounds, k) && r.publication.PublicationFailed? ==> run == Run(before + [AgentStarted], NothingPublished))
    ensures var run, r, before := WorkerRun(plan, rounds, ready), rounds[k], Repairs(plan, rounds, 0, k);
            Publishes(plan, rounds, k) && r in rounds ==>
              var head, number, sha := before + RoundEvents(plan, r), r.invocation.number, r.publication.sha;
              && (AllPass(r) && ready ==> run == Run(head + [SucceededValidation, PullRequestReady(number, plan.branch, sha)], ReadyReported(number, sha)))
              && (AllPass(r) && !ready ==> run == Run(head + [SucceededValidation], ReadyWithheld))
              && (k == plan.maxFixAttempts && LastFailing(r, c) ==>
                    run == Run(head + [FailedValidation(plan.commands[c], plan.summary, r.outcomes[c].exit)], ValidationGaveUp(r.outcomes[c].exit)))
  {
    assert rounds[k] in rounds;
    RunReaches(plan, rounds, ready, 0, k);
    if LastFailing(rounds[k], c) {
      LastFailingIs(rounds[k], c);
    }
    hide LastFailure;
  }

  /** A run reports a receipt only for a round in which every command passes, and the agent
      is started once for it and once for each repaired round before. */
  lemma FirstPassingRoundEnds(plan: Plan, rounds: seq<Round>, ready: bool, k: nat)
    requires ValidRounds(plan, rounds) && k <= plan.maxFixAttempts && forall j | 0 <= j < k :: NeedsRepair(plan, rounds, j)
    requires Publishes(plan, rounds, k) && AllPass(rounds[k])
    ensures var run := WorkerRun(plan, rounds, ready);
            && run.ending == (if ready then ReadyReported(rounds[k].invocation.number, rounds[k].publication.sha) else ReadyWithheld)
            && Starts(run.trace) == k + 1
  {
    var r, before := rounds[k], Repairs(plan, rounds, 0, k);
    assert r in rounds;
    RoundsDecide(plan, rounds, ready, k, 0);
    RepairsStartEach(plan, rounds, 0, k);
    RoundStartsOnce(plan, r);
    var tail := if ready then [SucceededValidation, PullRequestReady(r.invocation.number, plan.branch, r.publication.sha)] else [SucceededValidation];
    StartsAppend(before, RoundEvents(plan, r));
    StartsAppend(before + RoundEvents(plan, r), tail);
    assert tail[..|tail| - 1] == if ready then [SucceededValidation] else [];
    assert [SucceededValidation][..0] == [];
  }

  /** The first round from `i` on that does not just need repair, or the last one. */
  lemma {:induction false} DecidingRound(plan: Plan, rounds: seq<Round>, i: nat) returns (k: nat)
    requires ValidRounds(plan, rounds) && i <= plan.maxFixAttempts && forall j | 0 <= j < i :: NeedsRepair(plan, rounds, j)
    ensures k <= plan.maxFixAttempts && (forall j | 0 <= j < k :: NeedsRepair(plan, rounds, j))
    ensures k == plan.maxFixAttempts || !NeedsRepair(plan, rounds, k)
    decreases plan.maxFixAttempts - i
  {
    if i < plan.maxFixAttempts && NeedsRepair(plan, rounds, i) {
      k := DecidingRound(plan, rounds, i + 1);
    } else {
      k := i;
    }
  }

  /** The worker gives up on validation only after every attempt: each of the rounds 0 to
      `maxFixAttempts` reported the expected pull request, published, and has a command that
      does not pass. */
  lemma GivesUpOnlyAfterEveryAttempt(plan: Plan, rounds: seq<Round>, ready: bool)
    requires ValidRounds(plan, rounds)
    ensures WorkerRun(plan, rounds, ready).ending.ValidationGaveUp? <==> forall j | 0 <= j <= plan.maxFixAttempts :: NeedsRepair(plan, rounds, j)
  {
    hide WorkerRun, RoundEvents;
    var k := DecidingRound(plan, rounds, 0);
    assert rounds[k] in rounds;
    var c := LastFailingOf(rounds[k]);
    RoundsDecide(plan, rounds, ready, k, c);
    hide ReportsExpected, AllPass, LastFailing;
    assert NeedsRepair(plan, rounds, k) ==> k == plan.maxFixAttempts;
  }

  lemma LastFailingOf(r: Round) returns (c: nat)
    ensures AllPass(r) || LastFailing(r, c)
  {
    var last := LastFailure(r.outcomes);
    c := if last < 0 then 0 else last;
  }
}
