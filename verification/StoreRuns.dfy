/** Runs of the store: any sequence of its transactions, accepted or refused. Every
    reachable state satisfies the cross-table invariant, and every later state
    keeps what an earlier one established. */
module StoreRuns {
  import opened Wrappers
  import opened TaskState
  import opened Rows
  import opened StoreSpec
  import opened ForgeInbox
  import opened StoreInvariant
  import opened StoreSteps
  import opened StoreResets

  /** One transaction and the moment it runs at. */
  datatype Timed = Timed(op: Op, now: int)

  function Run(db: Db, run: seq<Timed>): Db
    decreases |run|
  {
    if run == [] then db else Run(Step(db, run[0].op, run[0].now), run[1..])
  }

  function ClockAfter(clock: int, run: seq<Timed>): int {
    if run == [] then clock else run[|run| - 1].now
  }

  /** Time strictly increases and every step is disciplined in the state it meets. */
  ghost predicate ValidRun(db: Db, clock: int, run: seq<Timed>)
    decreases |run|
  {
    run != [] ==>
      && clock < run[0].now && Disciplined(db, run[0].op)
      && ValidRun(Step(db, run[0].op, run[0].now), run[0].now, run[1..])
  }


  /** Every disciplined step, accepted or refused, keeps the invariant and everything
      that was established before. */
  lemma StepKeeps(db: Db, clock: int, op: Op, now: int)
    requires Inv(db, clock) && clock < now && Disciplined(db, op)
    ensures Inv(Step(db, op, now), now) && Advances(db, clock, Step(db, op, now))
  {
    hide Inv, Advances, Step, Apply, Disciplined;
    var db' := Step(db, op, now);
    if op.Create? {
      CreateKeeps(db, clock, op, now);
      LaterClock(db', clock, now);
    } else if op.Retry? {
      RetryKeeps(db, clock, op, now);
    } else if op.FollowUp? {
      FollowUpKeeps(db, clock, op, now);
    } else if BookkeepingOp(op) {
      BookkeepingKeeps(db, clock, op, now);
    } else if op.Fail? || op.FailAll? {
      FailKeeps(db, clock, op, now);
    } else {
      RowOpKeeps(db, clock, op, now);
      LaterClock(db', clock, now);
    }
  }

  lemma RowOpKeeps(db: Db, clock: int, op: Op, now: int)
    requires Inv(db, clock) && Disciplined(db, op)
    requires !op.Create? && !op.Retry? && !op.FollowUp? && !BookkeepingOp(op) && !op.Fail? && !op.FailAll?
    ensures Inv(Step(db, op, now), clock) && Advances(db, clock, Step(db, op, now))
  {
    hide Inv, Advances, Disciplined;
    if op.Append? {
      hide AppendLine;
      AdvancesIsReflexive(db, clock);
      if Apply(db, op, now).Ok? {
        AppendKeeps(db, clock, op.task, op.attempt, op.event, op.truncates);
      }
    } else if op.Processed? {
      hide ProcessWorkerEvent;
      ProcessKeeps(db, clock, op.worker);
    } else if op.Cancel? || op.Observe? || op.Move? || op.StartRunOf? || op.FinishRunOf? {
      hide Step, Apply;
      ViewOpKeeps(db, clock, op, now);
    } else {
      hide Step, Apply;
      AttemptOpKeeps(db, clock, op, now);
    }
  }

  lemma EmptyIsValid(clock: int)
    ensures Inv(EMPTY, clock)
  {
  }

  /** The invariant of every reachable state. */
  lemma {:induction false} RunKeeps(db: Db, clock: int, run: seq<Timed>)
    requires Inv(db, clock) && ValidRun(db, clock, run)
    ensures Inv(Run(db, run), ClockAfter(clock, run)) && Advances(db, clock, Run(db, run)) && clock <= ClockAfter(clock, run)
    decreases |run|
  {
    hide Inv, Advances, Step, Disciplined;
    if run == [] {
      AdvancesIsReflexive(db, clock);
    } else {
      var db', now := Step(db, run[0].op, run[0].now), run[0].now;
      StepKeeps(db, clock, run[0].op, now);
      RunKeeps(db', now, run[1..]);
      assert ClockAfter(clock, run) == ClockAfter(now, run[1..]);
      AdvancesIsTransitive(db, clock, db', now, Run(db', run[1..]));
    }
  }

  /** Every state a new store can reach satisfies the invariant. */
  lemma ReachableStatesAreValid(run: seq<Timed>, clock: int)
    requires ValidRun(EMPTY, clock, run)
    ensures Inv(Run(EMPTY, run), ClockAfter(clock, run))
  {
    EmptyIsValid(clock);
    RunKeeps(EMPTY, clock, run);
  }
}
