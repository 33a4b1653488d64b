/** The Secret-cleanup row of one attempt, fenced by a generation: a cleanup worker
    acts on a token it read earlier, while other transactions change the row. */
module SecretCleanup {
  import opened Wrappers

  datatype Identity = Identity(namespace: string, jobName: string, jobUid: string, secretName: string)

  datatype Row = Row(id: Identity, secretUid: string, generation: nat, eligibleAt: Option<int>, completedAt: Option<int>)

  /** What `GetSecretCleanup` returns: the row as it was, while it was not completed. */
  type Token = Row

  datatype Op =
    | Observe(id: Identity)                                                 // a Job was observed
    | Register(namespace: string, jobName: string, secretName: string)    // before the Job is created
    | MarkEligible(token: Token, at: int)
    | MarkIneligible
    | Bind(token: Token, secretUid: string)
    | Complete(token: Token, at: int)

  // ---------------------------------------------------------------- transactions

  function Replace(row: Row, id: Identity): Row {
    if id == row.id then row else Row(id, "", row.generation + 1, None, None)
  }

  /** The part of the row a token must still match. */
  predicate Matches(row: Row, token: Token) {
    row.generation == token.generation && row.id.jobUid == token.id.jobUid && row.completedAt.None?
  }

  function Apply(row: Option<Row>, op: Op): Result<Option<Row>> {
    match op
    case Observe(id) =>
      if row.None? then Ok(Some(Row(id, "", 1, None, None))) else Ok(Some(Replace(row.value, id)))
    case Register(namespace, jobName, secretName) =>
      // Registering does not know a Job UID and keeps the row's.
      if row.None? then Ok(Some(Row(Identity(namespace, jobName, "", secretName), "", 1, None, None)))
      else Ok(Some(Replace(row.value, Identity(namespace, jobName, row.value.id.jobUid, secretName))))
    case MarkEligible(token, at) =>
      if row.None? || !Matches(row.value, token) then Err(Conflict)
      else Ok(Some(if row.value.eligibleAt.Some? then row.value else row.value.(eligibleAt := Some(at))))
    case MarkIneligible =>
      if row.None? || row.value.completedAt.Some? || row.value.eligibleAt.None? then Ok(row)
      else Ok(Some(row.value.(eligibleAt := None, secretUid := "", generation := row.value.generation + 1)))
    case Bind(token, uid) =>
      if row.None? || !Matches(row.value, token) || row.value.id.secretName != token.id.secretName || row.value.eligibleAt.None? then Err(Conflict)
      else
        var r := row.value;
        Ok(Some(r.(generation := if r.secretUid != "" && r.secretUid != uid then r.generation + 1 else r.generation, secretUid := uid)))
    case Complete(token, at) =>
      if row.None? || !Matches(row.value, token) || row.value.id.secretName != token.id.secretName || row.value.secretUid != token.secretUid then Err(Conflict)
      else Ok(Some(row.value.(completedAt := Some(at))))
  }

  function Step(row: Option<Row>, op: Op): Option<Row> {
    match Apply(row, op)
    case Ok(next) => next
    case Err(_) => row
  }

  function Run(row: Option<Row>, ops: seq<Op>): Option<Row>
    decreases |ops|
  {
    if ops == [] then row else Run(Step(row, ops[0]), ops[1..])
  }

  // ------------------------------------------------------------ what a generation fixes

  /** A later row: generations never go back, and within one generation the identity,
      eligibility and completion, once there, stay. */
  predicate Later(r: Row, s: Row) {
    && r.generation <= s.generation
    && (r.generation == s.generation ==>
          && s.id == r.id
          && (r.eligibleAt.Some? ==> s.eligibleAt == r.eligibleAt)
          && (r.completedAt.Some? ==> s.completedAt == r.completedAt))
  }

  lemma StepIsLater(row: Row, op: Op)
    ensures Step(Some(row), op).Some? && Later(row, Step(Some(row), op).value)
  {
  }

  /** The generation fixes namespace, Job name, Job UID and Secret name for a whole run. */
  lemma {:induction false} GenerationFixesIdentity(row: Row, ops: seq<Op>)
    ensures Run(Some(row), ops).Some? && Later(row, Run(Some(row), ops).value)
    decreases |ops|
  {
    if ops != [] {
      StepIsLater(row, ops[0]);
      GenerationFixesIdentity(Step(Some(row), ops[0]).value, ops[1..]);
    }
  }

  /** A completion with a token captured while eligible succeeds only if the row still
      has that identity and is still eligible; it can succeed once. */
  lemma StaleTokensConflict(token: Token, ops: seq<Op>, at: int)
    requires token.eligibleAt.Some? && token.completedAt.None?
    ensures Run(Some(token), ops).Some?
    ensures var row := Run(Some(token), ops).value;
            var tx := Apply(Some(row), Complete(token, at));
            && (tx.Ok? ==> row.id == token.id && row.eligibleAt == token.eligibleAt && row.generation == token.generation && row.completedAt.None?)
            && (row.generation != token.generation || row.completedAt.Some? ==> tx == Err(Conflict))
            && (tx.Ok? ==> forall more: seq<Op>, again: int :: Apply(Run(tx.value, more), Complete(token, again)) == Err(Conflict))
  {
    GenerationFixesIdentity(token, ops);
    var row := Run(Some(token), ops).value;
    var tx := Apply(Some(row), Complete(token, at));
    if tx.Ok? {
      forall more: seq<Op>, again: int ensures Apply(Run(tx.value, more), Complete(token, again)) == Err(Conflict) {
        GenerationFixesIdentity(tx.value.value, more);
      }
    }
  }

  // ------------------------------------------------------------------ single operations

  /** A row that is not completed can be made eligible, bound and completed with what was
      read of it; nothing else of it changes on the way. */
  lemma CleanupRunsThrough(row: Row, at: int, uid: string, done: int)
    requires row.completedAt.None? && row.eligibleAt.None? && row.secretUid == ""
    ensures var eligible := row.(eligibleAt := Some(at));
            && Apply(Some(row), MarkEligible(row, at)) == Ok(Some(eligible))
            && Apply(Some(eligible), Bind(eligible, uid)) == Ok(Some(eligible.(secretUid := uid)))
            && Apply(Some(eligible.(secretUid := uid)), Complete(eligible.(secretUid := uid), done)) == Ok(Some(eligible.(secretUid := uid, completedAt := Some(done))))
  {
  }

  /** Revoking eligibility fences every token captured before. */
  lemma RevocationFences(row: Row, token: Token, uid: string, at: int)
    requires row.completedAt.None? && row.eligibleAt.Some? && token.generation <= row.generation
    ensures var revoked := Apply(Some(row), MarkIneligible);
            && revoked == Ok(Some(Row(row.id, "", row.generation + 1, None, None)))
            && Apply(revoked.value, MarkEligible(token, at)) == Apply(revoked.value, Bind(token, uid)) == Apply(revoked.value, Complete(token, at)) == Err(Conflict)
  {
  }

  /** Binding another Secret than the one bound starts a new generation, which fences the
      token; binding the same one again changes nothing. */
  lemma RebindingFences(row: Row, uid: string, at: int)
    requires row.completedAt.None? && row.eligibleAt.Some? && row.secretUid != ""
    ensures Apply(Some(row), Bind(row, row.secretUid)) == Ok(Some(row))
    ensures uid != row.secretUid ==>
              var bound := Apply(Some(row), Bind(row, uid));
              bound == Ok(Some(row.(secretUid := uid, generation := row.generation + 1))) && Apply(bound.value, Complete(row, at)) == Err(Conflict)
  {
  }

  /** A Job observed under another identity starts a new generation of the row; the same
      identity, and registering it without its Job UID, change nothing. */
  lemma ObservationIsExact(row: Row, id: Identity)
    ensures Apply(Some(row), Observe(id)) == Ok(Some(if id == row.id then row else Row(id, "", row.generation + 1, None, None)))
    ensures Apply(Some(row), Register(row.id.namespace, row.id.jobName, row.id.secretName)) == Ok(Some(row))
    ensures Apply(None, Observe(id)) == Ok(Some(Row(id, "", 1, None, None)))
  {
  }

  // ----------------------------------------------------------------- the cleanup worker

  /** A token is armed once the row has been seen eligible at its generation. */
  ghost predicate Armed(token: Token, row: Row) {
    && token.generation <= row.generation
    && (token.generation == row.generation ==> row.id == token.id && row.eligibleAt.Some?)
  }

  lemma {:induction false} ArmedStays(token: Token, row: Row, ops: seq<Op>)
    requires Armed(token, row)
    ensures Run(Some(row), ops).Some? && Armed(token, Run(Some(row), ops).value)
  {
    GenerationFixesIdentity(row, ops);
  }

  /** What the cluster answers for the Secret. */
  datatype Secret = Missing | Foreign | Owned(uid: string, deleted: bool)

  /** One turn of the worker's loop as the outside world shapes it: what happens to the
      row before each of its own transactions, and the answers it gets. */
  datatype Turn = Turn(
    terminal: bool, blocked: bool, secret: Secret, terminalAgain: bool, blockedAgain: bool,
    beforeCheck: seq<Op>, beforeBind: seq<Op>, beforeRead: seq<Op>, beforeCheckAgain: seq<Op>, beforeComplete: seq<Op>)

  /** A request to delete the Secret with this UID, with the row as it is at that moment and
      the token the worker acts on. */
  datatype Deletion = Deletion(row: Row, token: Token, uid: string)

  /** The row is still eligible and open, in the generation and with the identity of the token. */
  ghost predicate Justified(d: Deletion) {
    && d.row.eligibleAt.Some? && d.row.completedAt.None?
    && d.row.generation == d.token.generation && d.row.id == d.token.id
  }

  /** Nobody else touches the row during the turn, and the attempt may be cleaned. */
  predicate Undisturbed(turn: Turn) {
    && turn.terminal && !turn.blocked && turn.terminalAgain && !turn.blockedAgain
    && turn.beforeCheck == turn.beforeBind == turn.beforeRead == turn.beforeCheckAgain == turn.beforeComplete == []
  }

  /** The Secret is gone, is not this attempt's, or goes away when deleted. */
  predicate Removable(secret: Secret) {
    secret.Owned? ==> secret.deleted
  }

  class Cleanup {
    var row: Option<Row>

    constructor (row: Option<Row>)
      ensures this.row == row
    {
      this.row := row;
    }

    /** Other transactions on the row. */
    method Interfere(ops: seq<Op>)
      modifies this
      ensures row == Run(old(row), ops)
    {
      ghost var start := row;
      for i := 0 to |ops|
        invariant Run(row, ops[i..]) == Run(start, ops)
      {
        assert ops[i..][1..] == ops[i + 1..];
        row := Step(row, ops[i]);
      }
    }

    /** `secretCleanupStillEligible`. */
    method StillEligible(token: Token, terminal: bool, blocked: bool) returns (ok: bool)
      modifies this
      ensures ok <==>
                && terminal && !blocked && old(row).Some? && old(row).value.completedAt.None?
                && old(row).value.eligibleAt.Some? && old(row).value.generation == token.generation
                && old(row).value.id.jobUid == token.id.jobUid && old(row).value.id.secretName == token.id.secretName
                && (token.secretUid == "" || old(row).value.secretUid == token.secretUid)
      ensures row == Run(old(row), if terminal then [] else [MarkIneligible])
    {
      if !terminal {
        row := Step(row, MarkIneligible);
        assert [MarkIneligible][1..] == [];
        return false;
      }
      ok := row.Some? && row.value.completedAt.None? && row.value.eligibleAt.Some? && row.value.generation == token.generation
            && row.value.id.jobUid == token.id.jobUid && row.value.id.secretName == token.id.secretName
            && (token.secretUid == "" || row.value.secretUid == token.secretUid) && !blocked;
    }

    /** The worker, started with a token read while eligible. Whatever else happens to
        the row, if it reports completion then at that moment the row was eligible and
        had the identity of the token it completed with; each deletion it asks for is
        justified in the same way; and undisturbed it completes the cleanup of an eligible
        row in the first turn in which the Secret can be removed. */
    method Clean(start: Token, turns: seq<Turn>, at: int) returns (completed: bool, deletions: seq<Deletion>, ghost last: Token)
      requires row.Some? && Armed(start, row.value)
      modifies this
      ensures completed ==>
                && row.Some? && row.value.completedAt == Some(at) && row.value.eligibleAt.Some?
                && row.value.id == last.id && row.value.generation == last.generation
      ensures forall d | d in deletions :: Justified(d)
      ensures old(row) == Some(start) && start.eligibleAt.Some? && start.completedAt.None? ==>
                (turns != [] && Undisturbed(turns[0]) && Removable(turns[0].secret) ==> completed)
    {
      var token := start;
      last := start;
      completed, deletions := false, [];
      for i := 0 to |turns|
        invariant row.Some? && Armed(token, row.value) && last == token
        invariant forall d | d in deletions :: Justified(d)
        invariant i == 0 ==> token == start && row == old(row)
        invariant i > 0 && old(row) == Some(start) && start.eligibleAt.Some? && start.completedAt.None? ==> !Undisturbed(turns[0]) || !Removable(turns[0].secret)
      {
        var turn := turns[i];
        ArmedStays(token, row.value, turn.beforeCheck);
        Interfere(turn.beforeCheck);
        var eligible := StillEligible(token, turn.terminal, turn.blocked);
        if !eligible {
          return;
        }
        if turn.secret.Missing? || turn.secret.Foreign? {
          completed := Finish(token, turn.beforeComplete, at);
          return;
        }
        ArmedStays(token, row.value, turn.beforeBind);
        Interfere(turn.beforeBind);
        var bound := Apply(row, Bind(token, turn.secret.uid));
        if bound.Err? {
          return;
        }
        row := bound.value;
        // The bound row is read back in a separate query.
        GenerationFixesIdentity(row.value, turn.beforeRead);
        Interfere(turn.beforeRead);
        if row.value.completedAt.Some? {
          return;
        }
        token, last := row.value, row.value;
        GenerationFixesIdentity(row.value, turn.beforeCheckAgain);
        Interfere(turn.beforeCheckAgain);
        eligible := StillEligible(token, turn.terminalAgain, turn.blockedAgain);
        if !eligible {
          return;
        }
        deletions := deletions + [Deletion(row.value, token, turn.secret.uid)];
        if turn.secret.deleted {
          completed := Finish(token, turn.beforeComplete, at);
          return;
        }
      }
    }

    method Finish(token: Token, before: seq<Op>, at: int) returns (completed: bool)
      requires row.Some? && Armed(token, row.value)
      modifies this
      ensures completed ==>
                && row.Some? && row.value.completedAt == Some(at) && row.value.eligibleAt.Some?
                && row.value.id == token.id && row.value.generation == token.generation
      ensures before == [] && old(row) == Some(token) && token.completedAt.None? ==> completed
    {
      ArmedStays(token, row.value, before);
      Interfere(before);
      var tx := Apply(row, Complete(token, at));
      if tx.Err? {
        return false;
      }
      row := tx.value;
      return true;
    }
  }
}
