/** Deferring a forge batch is idempotent: recording the same error and Retry-After
    again before the recorded deadline changes nothing. */
module Deferral {
  import opened Wrappers
  import opened Rows
  import opened StoreSpec
  import opened ForgeInbox
  import opened StoreInvariant
  import opened StoreSteps
  import opened StoreResets
  import opened StoreRuns
  import opened StoreTheorems

  lemma Pow2IsMonotone(a: nat, b: nat)
    requires a <= b
    ensures 1 <= Pow2(a) <= Pow2(b)
  {
  }

  lemma RetryDelayIsMonotone(a: nat, b: nat)
    requires a <= b
    ensures RETRY_BASE <= RetryDelay(a) <= RetryDelay(b) <= RETRY_MAX
  {
    Pow2IsMonotone(a, b);
  }

  /** `forgeEventRetryDelay`: doubling six times is enough, since 320 s exceeds the bound. */
  method ComputeRetryDelay(attempts: nat) returns (delay: int)
    ensures delay == RetryDelay(attempts)
  {
    var rounds := if attempts < 6 then attempts else 6;
    delay := RETRY_BASE;
    for i := 0 to rounds
      invariant delay == RETRY_BASE * Pow2(i)
    {
      delay := delay * 2;
    }
    if attempts >= 6 {
      Pow2IsMonotone(6, attempts);
    }
    delay := if delay < RETRY_MAX then delay else RETRY_MAX;
  }

  /** The pause of a running batch is that of its most retried member. */
  lemma {:induction false} BatchDelayOfLargest(db: Db, ids: seq<ForgeEventId>, floor: int)
    requires Present(db, ids) && ids != []
    ensures BatchDelay(db, ids, floor, 0) == Max(floor, RetryDelay(LargestAttempts(db, ids)))
  {
    var rest, last := ids[..|ids| - 1], db.inbox[ids[|ids| - 1]].attempts;
    if rest != [] {
      BatchDelayOfLargest(db, rest, floor);
      var m := LargestAttempts(db, rest);
      RetryDelayIsMonotone(if m < last then m else last, if m < last then last else m);
    }
  }

  /** Counting one more failure and then discounting it gives the same pause. */
  lemma {:induction false} ReplayDelayOfEach(db: Db, db': Db, ids: seq<ForgeEventId>, floor: int)
    requires Present(db, ids) && Present(db', ids)
    requires forall id | id in ids :: db'.inbox[id].attempts == db.inbox[id].attempts + 1 >= 1
    ensures BatchDelay(db', ids, floor, 1) == BatchDelay(db, ids, floor, 0)
  {
    if ids != [] {
      ReplayDelayOfEach(db, db', ids[..|ids| - 1], floor);
    }
  }

  lemma {:induction false} ReplayDelayOfAll(db: Db, ids: seq<ForgeEventId>, floor: int, largest: nat)
    requires Present(db, ids) && ids != [] && forall id | id in ids :: db.inbox[id].attempts == largest + 1
    ensures BatchDelay(db, ids, floor, 1) == Max(floor, RetryDelay(largest))
  {
    if |ids| > 1 {
      ReplayDelayOfAll(db, ids[..|ids| - 1], floor, largest);
    }
  }

  /** The rows right after a deferral form a replay until the deadline. */
  lemma DeferralIsReplayable(db: Db, clock: int, ids: seq<ForgeEventId>, message: string, retryAfter: int, now: int, later: int)
    requires Inv(db, clock) && clock < now && ValidIds(ids) && Present(db, ids)
    requires DeferralReplay(db, ids, message, ClampRetryAfter(retryAfter), now).NotReplay? && ValidateOutcome(db, ids, now).Ok?
    requires var db1 := RecordBatchError(db, ids, message, retryAfter, now).value; !Due(db1.inbox[ids[0]], later)
    ensures var db1 := RecordBatchError(db, ids, message, retryAfter, now).value;
            DeferralReplay(db1, ids, message, ClampRetryAfter(retryAfter), later).IsReplay?
  {
    var floor := ClampRetryAfter(retryAfter);
    var db1 := RecordBatchError(db, ids, message, retryAfter, now).value;
    hide Inv, ValidateOutcome, DeferralReplay, ClampRetryAfter, BatchDelay, ReplayDelay, RunningFor, DeferredTogether, RecordBatchError;
    OutcomeIsUniform(db, ids, now);
    DeferredRows(db, ids, message, retryAfter, now);
    DeferredDelay(db, ids, message, retryAfter, now);
    DeferredCount(db, clock, ids, message, retryAfter, now);
    ReplayShape(db1, ids, message, floor, later);
  }

  /** What a recorded deferral writes to each event of the batch. */
  lemma DeferredRows(db: Db, ids: seq<ForgeEventId>, message: string, retryAfter: int, now: int)
    requires ValidIds(ids) && Present(db, ids) && ValidateOutcome(db, ids, now).Ok?
    requires DeferralReplay(db, ids, message, ClampRetryAfter(retryAfter), now).NotReplay?
    ensures var tx, next := RecordBatchError(db, ids, message, retryAfter, now), now + BatchDelay(db, ids, ClampRetryAfter(retryAfter), 0);
            && tx.Ok? && Present(tx.value, ids)
            && forall id | id in ids :: tx.value.inbox[id].attempts > 0 && tx.value.inbox[id] == DeferredRow(db.inbox[id], tx.value.inbox[id].attempts, message, now, next)
  {
    hide ValidateOutcome, DeferralReplay, ClampRetryAfter, BatchDelay, LargestAttempts;
  }

  /** Nobody else shares the batch's new stamp, or its attempt. */
  lemma DeferredCount(db: Db, clock: int, ids: seq<ForgeEventId>, message: string, retryAfter: int, now: int)
    requires Inv(db, clock) && clock < now && ValidIds(ids) && Present(db, ids) && ValidateOutcome(db, ids, now).Ok?
    requires DeferralReplay(db, ids, message, ClampRetryAfter(retryAfter), now).NotReplay?
    ensures var db1 := RecordBatchError(db, ids, message, retryAfter, now).value;
            match ValidateOutcome(db, ids, now).value
            case RunningBatch(t, a) => Owns(db1, t, a) && |RunningFor(db1, t, a)| == |ids|
            case PendingBatch => |DeferredTogether(db1, message, now, now + BatchDelay(db, ids, ClampRetryAfter(retryAfter), 0))| == |ids|
  {
    hide Inv, ClampRetryAfter, ValidateOutcome, DeferralReplay, BatchDelay;
    OutcomeIsUniform(db, ids, now);
    match ValidateOutcome(db, ids, now).value {
      case RunningBatch(t, a) =>
        RunningOwner(db, ids, now);
        RunningCount(db, ids, message, retryAfter, now, t, a);
      case PendingBatch =>
        StampedBefore(db, clock);
        PendingCount(db, clock, ids, message, retryAfter, now);
    }
  }

  lemma StampedBefore(db: Db, clock: int)
    requires Inv(db, clock)
    ensures forall e | e in db.inbox :: db.inbox[e].updatedAt <= clock
  {
    forall e | e in db.inbox ensures db.inbox[e].updatedAt <= clock {
      assert EventOk(db, db.inbox[e], clock);
    }
  }

  lemma RunningCount(db: Db, ids: seq<ForgeEventId>, message: string, retryAfter: int, now: int, t: TaskId, a: AttemptId)
    requires ValidIds(ids) && Present(db, ids) && ValidateOutcome(db, ids, now).Ok?
    requires DeferralReplay(db, ids, message, ClampRetryAfter(retryAfter), now).NotReplay?
    ensures var db1 := RecordBatchError(db, ids, message, retryAfter, now).value;
            db1.attempts == db.attempts && RunningFor(db1, t, a) == RunningFor(db, t, a)
  {
    hide ClampRetryAfter, ValidateOutcome, DeferralReplay, BatchDelay, LargestAttempts;
  }

  lemma PendingCount(db: Db, clock: int, ids: seq<ForgeEventId>, message: string, retryAfter: int, now: int)
    requires ValidIds(ids) && Present(db, ids) && clock < now && ValidateOutcome(db, ids, now) == Ok(PendingBatch)
    requires DeferralReplay(db, ids, message, ClampRetryAfter(retryAfter), now).NotReplay?
    requires forall e | e in db.inbox :: db.inbox[e].updatedAt <= clock
    requires forall id | id in ids :: db.inbox[id].status == EventPending && Unassociated(db.inbox[id])
    ensures var db1 := RecordBatchError(db, ids, message, retryAfter, now).value;
            |DeferredTogether(db1, message, now, now + BatchDelay(db, ids, ClampRetryAfter(retryAfter), 0))| == |ids|
  {
    hide ClampRetryAfter, ValidateOutcome, DeferralReplay, BatchDelay, LargestAttempts;
    var db1 := RecordBatchError(db, ids, message, retryAfter, now).value;
    var next := now + BatchDelay(db, ids, ClampRetryAfter(retryAfter), 0);
    DistinctSize(ids);
    assert DeferredTogether(db1, message, now, next) == SetOf(ids);
  }

  lemma DeferredDelay(db: Db, ids: seq<ForgeEventId>, message: string, retryAfter: int, now: int)
    requires ValidIds(ids) && Present(db, ids) && ValidateOutcome(db, ids, now).Ok?
    requires DeferralReplay(db, ids, message, ClampRetryAfter(retryAfter), now).NotReplay?
    ensures var db1, floor := RecordBatchError(db, ids, message, retryAfter, now).value, ClampRetryAfter(retryAfter);
            Present(db1, ids) && ReplayDelay(db1, ids, floor) == BatchDelay(db, ids, floor, 0)
  {
    hide DeferralReplay, ValidateOutcome, ClampRetryAfter, RetryDelay;
    var floor := ClampRetryAfter(retryAfter);
    var db1 := RecordBatchError(db, ids, message, retryAfter, now).value;
    if ValidateOutcome(db, ids, now).value.RunningBatch? {
      BatchDelayOfLargest(db, ids, floor);
      ReplayDelayOfAll(db1, ids, floor, LargestAttempts(db, ids));
    } else {
      ReplayDelayOfEach(db, db1, ids, floor);
    }
  }

  /** What it takes to be recognised as a replay. */
  lemma ReplayShape(db: Db, ids: seq<ForgeEventId>, message: string, floor: int, later: int)
    requires ids != [] && Present(db, ids)
    requires var first := db.inbox[ids[0]];
             && Incomplete(first) && !Due(first, later)
             && first.nextAttempt == Some(first.updatedAt + ReplayDelay(db, ids, floor))
             && (forall id | id in ids :: DeferredLike(db.inbox[id], first, message))
             && (if first.status == EventRunning then
                   && first.task.Some? && first.attempt.Some? && Owns(db, first.task.value, first.attempt.value)
                   && |RunningFor(db, first.task.value, first.attempt.value)| == |ids|
                 else Unassociated(first) && |DeferredTogether(db, message, first.updatedAt, first.nextAttempt.value)| == |ids|)
    ensures DeferralReplay(db, ids, message, floor, later).IsReplay?
  {
    hide ReplayDelay;
    assert ids[0] in ids;
  }

  /** Recording the same error again, before the deadline and at any later state in
      which the batch itself is untouched, is a no-op. */
  lemma DeferralReplayIsNoOp(db: Db, clock: int, ids: seq<ForgeEventId>, message: string, retryAfter: int, now: int, db2: Db, later: int)
    requires Inv(db, clock) && clock < now < later && RecordBatchError(db, ids, message, retryAfter, now).Ok?
    requires var db1 := RecordBatchError(db, ids, message, retryAfter, now).value;
             && Inv(db2, later) && Advances(db1, now, db2)
             && (forall id | id in ids :: id in db2.inbox && db2.inbox[id] == db1.inbox[id])
             && (ids != [] && ids[0] in db1.inbox ==> !Due(db1.inbox[ids[0]], later))
    ensures RecordBatchError(db2, ids, message, retryAfter, later) == Ok(db2)
  {
    var floor := ClampRetryAfter(retryAfter);
    var db1 := RecordBatchError(db, ids, message, retryAfter, now).value;
    hide Inv, DeferralReplay, ValidateOutcome, Advances, ClampRetryAfter, RecordBatchError;
    RecordCases(db, ids, message, retryAfter, now);
    if db1 == db && DeferralReplay(db, ids, message, floor, now).IsReplay? {
      LaterReplay(db, ids, message, floor, now, later);
    } else {
      DeferralIsReplayable(db, clock, ids, message, retryAfter, now, later);
    }
    RecordKeeps(db, clock, ids, message, retryAfter, now);
    StampedBefore(db1, now);
    ReplayTransfers(db1, now, ids, message, floor, db2, later);
    ReplayedIsNoOp(db2, ids, message, retryAfter, later);
  }

  lemma RecordCases(db: Db, ids: seq<ForgeEventId>, message: string, retryAfter: int, now: int)
    requires RecordBatchError(db, ids, message, retryAfter, now).Ok?
    ensures var db1, floor := RecordBatchError(db, ids, message, retryAfter, now).value, ClampRetryAfter(retryAfter);
            && ValidIds(ids) && Present(db, ids) && Present(db1, ids)
            && (if DeferralReplay(db, ids, message, floor, now).IsReplay? then db1 == db
                else DeferralReplay(db, ids, message, floor, now).NotReplay? && ValidateOutcome(db, ids, now).Ok?)
  {
    hide DeferralReplay, ValidateOutcome, ClampRetryAfter;
  }

  lemma RecordKeeps(db: Db, clock: int, ids: seq<ForgeEventId>, message: string, retryAfter: int, now: int)
    requires Inv(db, clock) && clock < now && RecordBatchError(db, ids, message, retryAfter, now).Ok?
    ensures Inv(RecordBatchError(db, ids, message, retryAfter, now).value, now)
  {
    hide Inv, RecordBatchError;
    StepKeeps(db, clock, ErrorOfBatch(ids, message, retryAfter), now);
  }

  lemma ReplayedIsNoOp(db: Db, ids: seq<ForgeEventId>, message: string, retryAfter: int, now: int)
    requires ValidIds(ids) && Present(db, ids) && DeferralReplay(db, ids, message, ClampRetryAfter(retryAfter), now).IsReplay?
    ensures RecordBatchError(db, ids, message, retryAfter, now) == Ok(db)
  {
  }

  lemma LaterReplay(db: Db, ids: seq<ForgeEventId>, message: string, floor: int, now: int, later: int)
    requires ids != [] && Present(db, ids) && DeferralReplay(db, ids, message, floor, now).IsReplay? && !Due(db.inbox[ids[0]], later)
    ensures DeferralReplay(db, ids, message, floor, later).IsReplay?
  {
    hide ReplayDelay;
  }

  lemma ReplayTransfers(db1: Db, now: int, ids: seq<ForgeEventId>, message: string, floor: int, db2: Db, later: int)
    requires ValidIds(ids) && Present(db1, ids) && Present(db2, ids) && now < later
    requires DeferralReplay(db1, ids, message, floor, later).IsReplay? && Advances(db1, now, db2)
    requires forall id | id in ids :: db2.inbox[id] == db1.inbox[id]
    requires db1.inbox[ids[0]].updatedAt <= now
    ensures DeferralReplay(db2, ids, message, floor, later).IsReplay?
  {
    var first := db1.inbox[ids[0]];
    ReplayIsWhole(db1, ids, message, floor, later);
    DistinctSize(ids);
    SameDelay(db1, db2, ids, floor);
    if first.status == EventRunning {
      var t, a := first.task.value, first.attempt.value;
      assert Owns(db2, t, a) && RunningFor(db2, t, a) == SetOf(ids);
    } else {
      assert DeferredTogether(db2, message, first.updatedAt, first.nextAttempt.value) == SetOf(ids);
    }
    ReplayShape(db2, ids, message, floor, later);
  }

  lemma {:induction false} SameDelay(db1: Db, db2: Db, ids: seq<ForgeEventId>, floor: int)
    requires Present(db1, ids) && Present(db2, ids) && forall id | id in ids :: db2.inbox[id] == db1.inbox[id]
    ensures ReplayDelay(db2, ids, floor) == ReplayDelay(db1, ids, floor)
  {
    if forall id | id in ids :: db1.inbox[id].attempts >= 1 {
      SameBatchDelay(db1, db2, ids, floor);
    }
  }

  lemma {:induction false} SameBatchDelay(db1: Db, db2: Db, ids: seq<ForgeEventId>, floor: int)
    requires Present(db1, ids) && Present(db2, ids) && forall id | id in ids :: db2.inbox[id] == db1.inbox[id] && db1.inbox[id].attempts >= 1
    ensures BatchDelay(db2, ids, floor, 1) == BatchDelay(db1, ids, floor, 1)
  {
    if ids != [] {
      SameBatchDelay(db1, db2, ids[..|ids| - 1], floor);
    }
  }

  /** A recognised replay names exactly the events that were deferred together. */
  lemma ReplayIsWhole(db: Db, ids: seq<ForgeEventId>, message: string, floor: int, now: int)
    requires ValidIds(ids) && Present(db, ids) && DeferralReplay(db, ids, message, floor, now).IsReplay?
    ensures var first := db.inbox[ids[0]];
            && Incomplete(first) && !Due(first, now) && first.nextAttempt == Some(first.updatedAt + ReplayDelay(db, ids, floor))
            && (forall id | id in ids :: DeferredLike(db.inbox[id], first, message))
            && (if first.status == EventRunning then
                  && first.task.Some? && first.attempt.Some? && Owns(db, first.task.value, first.attempt.value)
                  && RunningFor(db, first.task.value, first.attempt.value) == SetOf(ids)
                else Unassociated(first) && DeferredTogether(db, message, first.updatedAt, first.nextAttempt.value) == SetOf(ids))
  {
    hide ReplayDelay;
    var first := db.inbox[ids[0]];
    forall id | id in ids ensures DeferredLike(db.inbox[id], first, message) {
      var i :| 0 <= i < |ids| && ids[i] == id;
    }
    DistinctSize(ids);
    if first.status == EventRunning {
      assert SetOf(ids) <= RunningFor(db, first.task.value, first.attempt.value);
      SameSizeSubset(SetOf(ids), RunningFor(db, first.task.value, first.attempt.value));
    } else {
      assert SetOf(ids) <= DeferredTogether(db, message, first.updatedAt, first.nextAttempt.value);
      SameSizeSubset(SetOf(ids), DeferredTogether(db, message, first.updatedAt, first.nextAttempt.value));
    }
  }
}
