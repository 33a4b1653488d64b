/** The task lifecycle: which durable states exist and which edges are legal. */
module TaskState {

  datatype State =
    | Received | Queued | CreatingJob | JobPending | Running | AgentRunning
    | Validating | Committing | Pushing | CreatingPr | PrOpen | WaitingCi
    | WaitingReview | Ready
    | Failed | Cancelled

  const LIFECYCLE: seq<State> := [
    Received, Queued, CreatingJob, JobPending, Running, AgentRunning,
    Validating, Committing, Pushing, CreatingPr, PrOpen, WaitingCi,
    WaitingReview, Ready
  ]

  predicate Terminal(s: State) {
    s == Ready || s == Failed || s == Cancelled
  }

  /** The adjacency scan of `Machine.Transition`. */
  predicate Adjacent(from: State, to: State) {
    exists i | 1 <= i < |LIFECYCLE| :: LIFECYCLE[i - 1] == from && LIFECYCLE[i] == to
  }

  /** `Machine.Transition`: one adjacent lifecycle step, or a move of a
      non-terminal task to FAILED or CANCELLED. */
  predicate CanTransition(from: State, to: State) {
    && !Terminal(from)
    && (Adjacent(from, to) || to == Failed || to == Cancelled)
  }

  /** `Machine.Retry`. */
  predicate CanRetry(from: State, to: State) {
    from == Failed && to == Queued
  }

  /** `Machine.ForgeFollowUp`. */
  predicate CanFollowUp(from: State, to: State) {
    to == Queued && PullRequestOpen(from)
  }

  /** The states from which an open pull request can be followed up. */
  predicate PullRequestOpen(s: State) {
    s == PrOpen || s == WaitingCi || s == WaitingReview || s == Ready
  }

  /** `stateIndex`: the position in the recovery lifecycle, or -1. */
  function Index(s: State): (i: int)
    ensures 0 <= i < |LIFECYCLE| ==> LIFECYCLE[i] == s
    ensures i == -1 <==> s == Failed || s == Cancelled
    ensures -1 <= i < |LIFECYCLE|
  {
    match s
    case Received => 0      case Queued => 1         case CreatingJob => 2
    case JobPending => 3    case Running => 4        case AgentRunning => 5
    case Validating => 6    case Committing => 7     case Pushing => 8
    case CreatingPr => 9    case PrOpen => 10        case WaitingCi => 11
    case WaitingReview => 12 case Ready => 13
    case Failed => -1       case Cancelled => -1
  }

  predicate AtOrAfter(s: State, target: State) {
    Index(s) >= Index(target)
  }

  /** Every state but FAILED and CANCELLED is in the list. */
  lemma ListedStates(s: State)
    ensures s in LIFECYCLE <==> Index(s) >= 0
  {
    assert Index(s) >= 0 ==> LIFECYCLE[Index(s)] == s;
    assert Failed !in LIFECYCLE && Cancelled !in LIFECYCLE;
  }

  /** `stateIndex` as the source writes it: a scan of the lifecycle list. */
  method StateIndex(s: State) returns (index: int)
    ensures index == Index(s)
    ensures index == -1 <==> s !in LIFECYCLE
    ensures index != -1 ==> 0 <= index < |LIFECYCLE| && LIFECYCLE[index] == s && s !in LIFECYCLE[..index]
  {
    hide LIFECYCLE;
    for i := 0 to |LIFECYCLE|
      invariant s !in LIFECYCLE[..i]
    {
      if LIFECYCLE[i] == s {
        LifecycleIndex(i);
        return i;
      }
    }
    ListedStates(s);
    return -1;
  }

  /** How far an attempt has come: every legal edge moves strictly up, and no
      state is further than 13 edges away from RECEIVED. */
  function Rank(s: State): (r: nat)
    ensures r <= 13
  {
    if Index(s) < 0 then 13 else Index(s)
  }

  lemma LifecycleIndex(i: int)
    requires 0 <= i < |LIFECYCLE|
    ensures Index(LIFECYCLE[i]) == i
  {
  }

  lemma AdjacentIndexes(from: State, to: State)
    requires Adjacent(from, to)
    ensures Index(to) == Index(from) + 1 && Index(from) >= 0
  {
    var i :| 1 <= i < |LIFECYCLE| && LIFECYCLE[i - 1] == from && LIFECYCLE[i] == to;
    LifecycleIndex(i - 1);
    LifecycleIndex(i);
  }

  /** The list scan in `Machine.Transition` is exactly adjacency of indexes. */
  lemma CanTransitionIsAdjacency(from: State, to: State)
    ensures CanTransition(from, to) <==>
              !Terminal(from) && (Index(to) == Index(from) + 1 || to == Failed || to == Cancelled)
  {
    if Index(from) >= 0 && Index(to) == Index(from) + 1 {
      var i := Index(to);
      assert LIFECYCLE[i - 1] == from && LIFECYCLE[i] == to;
    }
    if Adjacent(from, to) {
      AdjacentIndexes(from, to);
    }
  }

  /** Legal edges never stay put, always climb, and never leave a terminal
      state; only a reset leaves FAILED or READY, and nothing leaves CANCELLED. */
  lemma EdgesClimb(from: State, to: State)
    ensures CanTransition(from, to) ==> from != to && Rank(from) < Rank(to) && !Terminal(from)
    ensures CanRetry(from, to) || CanFollowUp(from, to) ==> from != Cancelled && to == Queued && Rank(to) == 1
    ensures CanTransition(from, to) && PullRequestOpen(to) ==> to == PrOpen || PullRequestOpen(from)
  {
    CanTransitionIsAdjacency(from, to);
  }
}
