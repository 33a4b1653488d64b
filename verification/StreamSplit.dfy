/** Splitting a command's output stream into lines and bounded chunks that never cut
    a secret in two. Bytes are held as characters. */
module StreamSplit {
  import opened Wrappers

  const CHUNK := 8192
  const PLACEHOLDER := "[REDACTED]"

  // ------------------------------------------------------------------- searching

  predicate Occurs(data: string, pattern: string, i: nat) {
    i + |pattern| <= |data| && data[i..i + |pattern|] == pattern
  }

  /** The first occurrence at or after `from`, or -1. */
  function IndexFrom(data: string, pattern: string, from: nat): (i: int)
    requires from <= |data|
    ensures i == -1 || (from <= i && Occurs(data, pattern, i))
    ensures forall j: nat | from <= j && Occurs(data, pattern, j) :: 0 <= i <= j
    decreases |data| - from
  {
    if Occurs(data, pattern, from) then from
    else if from == |data| then -1
    else IndexFrom(data, pattern, from + 1)
  }

  function Index(data: string, pattern: string): (i: int)
    ensures i == -1 || (0 <= i && Occurs(data, pattern, i))
    ensures forall j: nat | Occurs(data, pattern, j) :: 0 <= i <= j
  {
    IndexFrom(data, pattern, 0)
  }

  /** An occurrence that lies inside `p` is found in every extension of `p`. */
  lemma IndexIsStable(p: string, q: string, pattern: string, bound: nat)
    requires pattern != "" && bound + |pattern| <= |p| + 1
    ensures var i, j := Index(p, pattern), Index(p + q, pattern);
            (0 <= i < bound <==> 0 <= j < bound) && (0 <= i < bound ==> i == j)
  {
    forall k: nat | k < bound ensures Occurs(p + q, pattern, k) == Occurs(p, pattern, k) {
      assert (p + q)[k..k + |pattern|] == p[k..k + |pattern|];
    }
  }

  // ------------------------------------------------------------ one step's choice

  /** Some text to write and the input it stands for. */
  datatype Piece = Piece(text: string, raw: string)

  function LongestSecret(secrets: seq<string>): (n: nat)
    ensures n >= 1 && forall s | s in secrets :: |s| <= n
  {
    if secrets == [] then 1
    else
      var rest := LongestSecret(secrets[..|secrets| - 1]);
      var last := |secrets[|secrets| - 1]|;
      if last > rest then last else rest
  }

  datatype Match = Match(start: int, length: nat)

  /** The scan over the secrets in `nextStreamChunk`. */
  function FirstMatch(data: string, secrets: seq<string>): Match {
    if secrets == [] then Match(-1, 0)
    else Better(data, FirstMatch(data, secrets[..|secrets| - 1]), secrets[|secrets| - 1])
  }

  function Better(data: string, m: Match, secret: string): Match {
    if secret == "" then m
    else
      var start := Index(data, secret);
      if 0 <= start < CHUNK && (m.start < 0 || start < m.start || (start == m.start && |secret| > m.length)) then Match(start, |secret|) else m
  }

  /** Leftmost, then longest: no secret occurs earlier in the chunk, and none that
      occurs at the same place is longer. */
  lemma {:induction false} FirstMatchIsLeftmostLongest(data: string, secrets: seq<string>)
    ensures var m := FirstMatch(data, secrets);
            && (m.start == -1 ==> m.length == 0)
            && (m.start != -1 ==> 0 <= m.start < CHUNK && m.length > 0 && m.start + m.length <= |data| && data[m.start..m.start + m.length] in secrets)
            && (forall s, i: nat | s in secrets && s != "" && i < CHUNK && Occurs(data, s, i) ::
                  m.start != -1 && m.start <= i && (i == m.start ==> |s| <= m.length))
  {
    if secrets != [] {
      var init, last := secrets[..|secrets| - 1], secrets[|secrets| - 1];
      FirstMatchIsLeftmostLongest(data, init);
      assert forall s | s in secrets :: s in init || s == last;
    }
  }

  function NextChunk(data: string, secrets: seq<string>): (piece: Piece)
    requires |data| >= CHUNK
    ensures piece.raw != "" && piece.raw <= data
  {
    FirstMatchIsLeftmostLongest(data, secrets);
    var m := FirstMatch(data, secrets);
    if m.start > 0 then Piece(data[..m.start], data[..m.start])
    else if m.start == 0 then Piece(PLACEHOLDER, data[..m.length])
    else Piece(data[..CHUNK], data[..CHUNK])
  }

  /** A nonempty secret begins at `i`. */
  predicate SecretAt(data: string, secrets: seq<string>, i: nat) {
    exists s | s in secrets :: s != "" && Occurs(data, s, i)
  }

  /** No secret begins before `bound`. */
  predicate NoSecretBefore(data: string, secrets: seq<string>, bound: nat) {
    forall i: nat | i < bound :: !SecretAt(data, secrets, i)
  }

  /** The match is where the first secret of the chunk begins, and there is none otherwise. */
  lemma MatchIsFirstSecret(data: string, secrets: seq<string>, i: nat)
    requires i <= CHUNK && NoSecretBefore(data, secrets, i) && (i < CHUNK ==> SecretAt(data, secrets, i))
    ensures FirstMatch(data, secrets).start == if i < CHUNK then i else -1
  {
    FirstMatchIsLeftmostLongest(data, secrets);
    hide FirstMatch;
    var m := FirstMatch(data, secrets);
    if m.start != -1 {
      var s := data[m.start..m.start + m.length];
      assert s in secrets && s != "" && Occurs(data, s, m.start);
      assert SecretAt(data, secrets, m.start);
    }
  }

  lemma FrontSecretIsReplaced(data: string, secrets: seq<string>)
    requires |data| >= CHUNK && SecretAt(data, secrets, 0)
    ensures var piece := NextChunk(data, secrets);
            && piece.text == PLACEHOLDER && piece.raw in secrets && piece.raw != "" && Occurs(data, piece.raw, 0)
            && forall s | s in secrets && Occurs(data, s, 0) :: |s| <= |piece.raw|
  {
    FirstMatchIsLeftmostLongest(data, secrets);
    MatchIsFirstSecret(data, secrets, 0);
    hide FirstMatch, SecretAt;
    var m := FirstMatch(data, secrets);
    assert data[0..m.length] == data[..m.length];
  }

  /** The chunk taken from long pending bytes, by the occurrences of secrets alone: a
      secret at the front is replaced, the longest one there; up to the first secret that
      begins in the chunk the bytes are taken as they are; and only if none begins there, a
      full chunk is taken. */
  lemma ChunkStopsAtSecrets(data: string, secrets: seq<string>, i: nat)
    requires |data| >= CHUNK && i <= CHUNK && NoSecretBefore(data, secrets, i)
    ensures var piece := NextChunk(data, secrets);
            && (SecretAt(data, secrets, 0) ==>
                  && piece.text == PLACEHOLDER && piece.raw in secrets && piece.raw != "" && Occurs(data, piece.raw, 0)
                  && forall s | s in secrets && Occurs(data, s, 0) :: |s| <= |piece.raw|)
            && (0 < i < CHUNK && SecretAt(data, secrets, i) ==> piece == Piece(data[..i], data[..i]))
            && (i == CHUNK ==> piece == Piece(data[..CHUNK], data[..CHUNK]))
  {
    hide SecretAt, FirstMatch, NoSecretBefore, Occurs;
    if SecretAt(data, secrets, 0) {
      FrontSecretIsReplaced(data, secrets);
    }
    if i == CHUNK || SecretAt(data, secrets, i) {
      MatchIsFirstSecret(data, secrets, i);
    }
  }

  /** Hence a secret never begins inside a chunk that is written as it is. */
  lemma ChunkHoldsNoSecret(data: string, secrets: seq<string>)
    requires |data| >= CHUNK
    ensures var piece := NextChunk(data, secrets);
            SecretAt(data, secrets, 0) || (piece.text == piece.raw && NoSecretBefore(data, secrets, |piece.raw|))
  {
    FirstMatchIsLeftmostLongest(data, secrets);
    hide FirstMatch;
    var m := FirstMatch(data, secrets);
    if m.start == 0 {
      assert Occurs(data, data[0..m.length], 0) && SecretAt(data, secrets, 0);
    }
  }

  /** What the write loop does with the pending bytes: a short line, a chunk, or wait. */
  function Decide(pending: string, secrets: seq<string>): (step: Option<Piece>)
    ensures step.Some? ==> step.value.raw != "" && step.value.raw <= pending
  {
    var newline := Index(pending, "\n");
    if 0 <= newline <= CHUNK then Some(Piece(pending[..newline], pending[..newline + 1]))
    else if |pending| <= CHUNK + LongestSecret(secrets) then None
    else Some(NextChunk(pending, secrets))
  }

  lemma {:induction false} FirstMatchIsStable(p: string, q: string, secrets: seq<string>)
    requires forall s | s in secrets :: CHUNK + |s| <= |p|
    ensures FirstMatch(p + q, secrets) == FirstMatch(p, secrets)
  {
    if secrets != [] {
      FirstMatchIsStable(p, q, secrets[..|secrets| - 1]);
      var last := secrets[|secrets| - 1];
      if last != "" {
        IndexIsStable(p, q, last, CHUNK);
      }
    }
  }

  /** Once taken, a decision does not depend on later input. */
  lemma DecideIsStable(p: string, q: string, secrets: seq<string>)
    requires Decide(p, secrets).Some?
    ensures Decide(p + q, secrets) == Decide(p, secrets)
  {
    var newline := Index(p, "\n");
    if 0 <= newline <= CHUNK {
      IndexIsStable(p, q, "\n", newline + 1);
      assert (p + q)[..newline] == p[..newline] && (p + q)[..newline + 1] == p[..newline + 1];
    } else {
      IndexIsStable(p, q, "\n", CHUNK + 1);
      NextChunkIsStable(p, q, secrets);
    }
  }

  lemma NextChunkIsStable(p: string, q: string, secrets: seq<string>)
    requires |p| > CHUNK + LongestSecret(secrets)
    ensures NextChunk(p + q, secrets) == NextChunk(p, secrets)
  {
    FirstMatchIsStable(p, q, secrets);
    FirstMatchIsLeftmostLongest(p, secrets);
    hide FirstMatch;
    var m := FirstMatch(p, secrets);
    assert m.start > 0 ==> (p + q)[..m.start] == p[..m.start];
    assert (p + q)[..m.length] == p[..m.length] && (p + q)[..CHUNK] == p[..CHUNK];
  }

  // ------------------------------------------------------------- the whole stream

  /** All pieces the loop takes from the pending bytes. */
  function Pieces(pending: string, secrets: seq<string>): seq<Piece>
    decreases |pending|
  {
    match Decide(pending, secrets)
    case None => []
    case Some(piece) => [piece] + Pieces(pending[|piece.raw|..], secrets)
  }

  /** What stays pending. */
  function Rest(pending: string, secrets: seq<string>): string
    decreases |pending|
  {
    match Decide(pending, secrets)
    case None => pending
    case Some(piece) => Rest(pending[|piece.raw|..], secrets)
  }

  /** Everything a stream writes: its pieces, then what is left at the flush. */
  function Texts(data: string, secrets: seq<string>): seq<string> {
    TextsOf(Pieces(data, secrets)) + if Rest(data, secrets) == "" then [] else [Rest(data, secrets)]
  }

  function TextsOf(pieces: seq<Piece>): (texts: seq<string>)
    ensures |texts| == |pieces|
  {
    seq(|pieces|, i requires 0 <= i < |pieces| => pieces[i].text)
  }

  function RawOf(pieces: seq<Piece>): string {
    if pieces == [] then "" else pieces[0].raw + RawOf(pieces[1..])
  }

  /** Input that arrives later only adds pieces. */
  lemma {:induction false} PiecesAppend(p: string, q: string, secrets: seq<string>)
    ensures Pieces(p + q, secrets) == Pieces(p, secrets) + Pieces(Rest(p, secrets) + q, secrets)
    ensures Rest(p + q, secrets) == Rest(Rest(p, secrets) + q, secrets)
    decreases |p|
  {
    hide Decide;
    var step := Decide(p, secrets);
    if step.Some? {
      var tail := p[|step.value.raw|..];
      DecideIsStable(p, q, secrets);
      PiecesAppend(tail, q, secrets);
      assert (p + q)[|step.value.raw|..] == tail + q;
    }
  }

  predicate Faithful(piece: Piece, secrets: seq<string>) {
    || (piece.raw == piece.text + "\n" && |piece.text| <= CHUNK && '\n' !in piece.text)
    || (piece.raw == piece.text && 0 < |piece.text| <= CHUNK)
    || (piece.raw in secrets && piece.raw != "" && piece.text == PLACEHOLDER)
  }

  /** Nothing is lost, duplicated or reordered: the pieces' inputs and the rest make up
      the stream. */
  lemma {:induction false} PiecesReassemble(data: string, secrets: seq<string>)
    ensures RawOf(Pieces(data, secrets)) + Rest(data, secrets) == data
    decreases |data|
  {
    hide Decide, Pieces, Rest;
    Unfold(data, secrets);
    var step := Decide(data, secrets);
    if step.Some? {
      var tail := data[|step.value.raw|..];
      PiecesReassemble(tail, secrets);
      StepIsFaithful(data, secrets);
      assert data == step.value.raw + tail;
    }
  }

  /** Each piece is written as a line, as itself or as a redacted secret. */
  lemma {:induction false} PiecesAreFaithful(data: string, secrets: seq<string>)
    ensures forall piece | piece in Pieces(data, secrets) :: Faithful(piece, secrets)
    decreases |data|
  {
    hide Decide, Faithful, Pieces;
    Unfold(data, secrets);
    var step := Decide(data, secrets);
    if step.Some? {
      PiecesAreFaithful(data[|step.value.raw|..], secrets);
      StepIsFaithful(data, secrets);
    }
  }

  /** No chunk of the stream cuts a secret: where a piece is neither a line nor a redacted
      secret, no secret of the stream begins inside it. */
  lemma {:induction false} ChunksCutNoSecret(data: string, secrets: seq<string>, n: nat, before: string)
    requires n < |Pieces(data, secrets)| && before == RawOf(Pieces(data, secrets)[..n])
    ensures |before| <= |data|
    ensures var piece, rest := Pieces(data, secrets)[n], data[|before|..];
            || (piece.raw == piece.text + "\n" && Index(piece.text, "\n") == -1)
            || (piece.text == PLACEHOLDER && piece.raw in secrets && SecretAt(rest, secrets, 0))
            || (piece.raw == piece.text && piece.raw <= rest && NoSecretBefore(rest, secrets, |piece.raw|))
    decreases |data|
  {
    hide Decide;
    var step := Decide(data, secrets).value;
    var tail := data[|step.raw|..];
    if n == 0 {
      assert before == "" && data[0..] == data;
      StepCutsNoSecret(data, secrets);
    } else {
      assert Pieces(data, secrets)[..n][1..] == Pieces(tail, secrets)[..n - 1];
      var later := RawOf(Pieces(tail, secrets)[..n - 1]);
      ChunksCutNoSecret(tail, secrets, n - 1, later);
      assert tail[|later|..] == data[|before|..];
    }
  }

  lemma StepCutsNoSecret(data: string, secrets: seq<string>)
    requires Decide(data, secrets).Some?
    ensures var piece := Decide(data, secrets).value;
            || (piece.raw == piece.text + "\n" && Index(piece.text, "\n") == -1)
            || (piece.text == PLACEHOLDER && piece.raw in secrets && SecretAt(data, secrets, 0))
            || (piece.raw == piece.text && piece.raw <= data && NoSecretBefore(data, secrets, |piece.raw|))
  {
    var newline := Index(data, "\n");
    if 0 <= newline <= CHUNK {
      assert data[newline..newline + 1] == "\n" && data[..newline + 1] == data[..newline] + "\n";
      forall i: nat | i < newline ensures !Occurs(data[..newline], "\n", i) {
        NoNewlineBefore(data, newline, i);
        NewlineOccurs(data[..newline], i);
      }
    } else {
      ChunkHoldsNoSecret(data, secrets);
      if SecretAt(data, secrets, 0) {
        FrontSecretIsReplaced(data, secrets);
      }
    }
  }

  /** What stays pending is bounded and has no line or chunk left to write. */
  lemma {:induction false} RestIsBounded(data: string, secrets: seq<string>)
    ensures |Rest(data, secrets)| <= CHUNK + LongestSecret(secrets)
    ensures forall i | 0 <= i <= CHUNK && i < |Rest(data, secrets)| :: Rest(data, secrets)[i] != '\n'
    decreases |data|
  {
    hide Decide, Pieces, Rest;
    Unfold(data, secrets);
    var step := Decide(data, secrets);
    if step.Some? {
      RestIsBounded(data[|step.value.raw|..], secrets);
    } else {
      WaitingIsBounded(data, secrets);
    }
  }

  lemma WaitingIsBounded(data: string, secrets: seq<string>)
    requires Decide(data, secrets).None?
    ensures |data| <= CHUNK + LongestSecret(secrets)
    ensures forall i | 0 <= i <= CHUNK && i < |data| :: data[i] != '\n'
  {
    NoEarlyNewline(data);
  }

  lemma NewlineOccurs(data: string, i: nat)
    requires i < |data|
    ensures Occurs(data, "\n", i) <==> data[i] == '\n'
  {
    assert data[i..i + 1] == [data[i]];
  }

  lemma NoNewlineBefore(data: string, newline: nat, i: nat)
    requires i < newline < |data| && Index(data, "\n") == newline
    ensures data[i] != '\n'
  {
    NewlineOccurs(data, i);
  }

  lemma NoEarlyNewline(data: string)
    requires !(0 <= Index(data, "\n") <= CHUNK)
    ensures forall i | 0 <= i <= CHUNK && i < |data| :: data[i] != '\n'
  {
    forall i: nat | i <= CHUNK && i < |data| ensures data[i] != '\n' {
      NewlineOccurs(data, i);
    }
  }

  lemma StepIsFaithful(data: string, secrets: seq<string>)
    requires Decide(data, secrets).Some?
    ensures Faithful(Decide(data, secrets).value, secrets)
  {
    var newline := Index(data, "\n");
    if 0 <= newline <= CHUNK {
      assert data[newline..newline + 1] == "\n";
      assert data[..newline + 1] == data[..newline] + "\n";
      forall i: nat | i < newline ensures data[i] != '\n' {
        NoNewlineBefore(data, newline, i);
      }
    } else {
      FirstMatchIsLeftmostLongest(data, secrets);
    }
  }

  // --------------------------------------------------------------------- the object

  lemma NextChunkByOccurrence(data: string, secrets: seq<string>)
    requires |data| >= CHUNK
    ensures var piece := NextChunk(data, secrets);
            && (SecretAt(data, secrets, 0) ==> piece.text == PLACEHOLDER && piece.raw in secrets && Occurs(data, piece.raw, 0))
            && (!SecretAt(data, secrets, 0) ==> piece.text == piece.raw && NoSecretBefore(data, secrets, |piece.raw|))
            && (!SecretAt(data, secrets, 0) && |piece.raw| < CHUNK ==> SecretAt(data, secrets, |piece.raw|))
  {
    ChunkHoldsNoSecret(data, secrets);
    if SecretAt(data, secrets, 0) {
      FrontSecretIsReplaced(data, secrets);
    } else {
      FirstMatchIsLeftmostLongest(data, secrets);
      hide FirstMatch;
      var m := FirstMatch(data, secrets);
      if m.start > 0 {
        assert Occurs(data, data[m.start..m.start + m.length], m.start);
      }
    }
  }

  /** The scan over the secrets, as `nextStreamChunk` makes it. */
  method NextStreamChunk(data: string, secrets: seq<string>) returns (piece: Piece)
    requires |data| >= CHUNK
    ensures piece == NextChunk(data, secrets)
    ensures SecretAt(data, secrets, 0) ==> piece.text == PLACEHOLDER && piece.raw in secrets && Occurs(data, piece.raw, 0)
    ensures !SecretAt(data, secrets, 0) ==> piece.text == piece.raw && NoSecretBefore(data, secrets, |piece.raw|)
    ensures !SecretAt(data, secrets, 0) && |piece.raw| < CHUNK ==> SecretAt(data, secrets, |piece.raw|)
  {
    NextChunkByOccurrence(data, secrets);
    hide SecretAt, NoSecretBefore, Occurs;
    var matchStart: int, matchLength: nat := -1, 0;
    for i := 0 to |secrets|
      invariant Match(matchStart, matchLength) == FirstMatch(data, secrets[..i])
    {
      assert secrets[..i + 1][..i] == secrets[..i];
      var secret := secrets[i];
      if secret == "" {
        continue;
      }
      var start := Index(data, secret);
      if start >= 0 && start < CHUNK && (matchStart < 0 || start < matchStart || (start == matchStart && |secret| > matchLength)) {
        matchStart, matchLength := start, |secret|;
      }
    }
    assert secrets[..|secrets|] == secrets;
    FirstMatchIsLeftmostLongest(data, secrets);
    if matchStart > 0 {
      return Piece(data[..matchStart], data[..matchStart]);
    }
    if matchStart == 0 {
      return Piece(PLACEHOLDER, data[..matchLength]);
    }
    return Piece(data[..CHUNK], data[..CHUNK]);
  }

  method MaxSecretLength(secrets: seq<string>) returns (longest: nat)
    ensures longest == LongestSecret(secrets)
  {
    longest := 1;
    for i := 0 to |secrets|
      invariant longest == LongestSecret(secrets[..i])
    {
      assert secrets[..i + 1][..i] == secrets[..i];
      if |secrets[i]| > longest {
        longest := |secrets[i]|;
      }
    }
    assert secrets[..|secrets|] == secrets;
  }

  /** A stream in front of a writer that accepts `accepts` lines and then fails. */
  class ReadableStream {
    const name: string
    const secrets: seq<string>
    const redact: string -> string
    const accepts: nat
    var pending: string
    var failed: bool
    var output: seq<string>
    ghost var fed: string

    constructor (name: string, secrets: seq<string>, redact: string -> string, accepts: nat)
      ensures Valid() && fed == "" && output == [] && !failed
      ensures this.name == name && this.secrets == secrets && this.redact == redact && this.accepts == accepts
    {
      this.name, this.secrets, this.redact, this.accepts := name, secrets, redact, accepts;
      pending, failed, output, fed := "", false, [], "";
      new;
      assert Decide("", secrets) == None;
    }

    function Format(text: string): string {
      "[" + name + "] " + redact(text) + "\n"
    }

    function FormatAll(texts: seq<string>): (lines: seq<string>)
      ensures |lines| == |texts|
    {
      seq(|texts|, i requires 0 <= i < |texts| => Format(texts[i]))
    }

    /** The lines of these pieces. */
    ghost function LinesOf(pieces: seq<Piece>): (lines: seq<string>)
      ensures |lines| == |pieces|
    {
      FormatAll(TextsOf(pieces))
    }

    lemma LinesAppend(done: seq<Piece>, piece: Piece, later: seq<Piece>)
      ensures LinesOf(done + [piece]) == LinesOf(done) + [Format(piece.text)]
      ensures LinesOf(done + later)[..|done|] == LinesOf(done)
    {
    }

    /** What has been written depends only on the bytes fed so far, not on how they
        were cut into writes. */
    ghost predicate Valid()
      reads this
    {
      var lines := LinesOf(Pieces(fed, secrets));
      if failed then |lines| > accepts && output == lines[..accepts]
      else |lines| <= accepts && output == lines && pending == Rest(fed, secrets)
    }

    method WriteLine(text: string) returns (ok: bool)
      modifies this`output
      ensures ok == (|old(output)| < accepts)
      ensures output == if ok then old(output) + [Format(text)] else old(output)
    {
      ok := |output| < accepts;
      if ok {
        output := output + [Format(text)];
      }
    }

    /** `Write`: every byte is taken, or an error is returned. */
    method Write(data: string) returns (written: int, ok: bool)
      requires Valid()
      modifies this
      ensures Valid() && fed == old(fed) + data
      ensures ok == !failed && written == if ok then |data| else 0
    {
      hide Decide, Pieces, Rest, LinesOf, Format, FormatAll, TextsOf;
      ghost var before := fed;
      fed := fed + data;
      PiecesAppend(before, data, secrets);
      ghost var all := Pieces(fed, secrets);
      if failed {
        var done := Pieces(before, secrets);
        assert |done| > accepts;
        LinesAppend(done, Piece("", ""), Pieces(Rest(before, secrets) + data, secrets));
        return 0, false;
      }
      pending := pending + data;
      ghost var done := Pieces(before, secrets);
      while true
        invariant !failed && fed == before + data && |done| <= accepts
        invariant output == LinesOf(done)
        invariant all == done + Pieces(pending, secrets) && Rest(fed, secrets) == Rest(pending, secrets)
        decreases |pending|
      {
        Unfold(pending, secrets);
        var step := NextPiece(pending);
        if step.None? {
          assert done + [] == done;
          break;
        }
        var piece := step.value;
        LinesAppend(done, piece, Pieces(pending, secrets));
        var sent := WriteLine(piece.text);
        if !sent {
          failed := true;
          return 0, false;
        }
        assert all == (done + [piece]) + Pieces(pending[|piece.raw|..], secrets);
        done := done + [piece];
        pending := pending[|piece.raw|..];
      }
      return |data|, true;
    }

    /** The choice inside the write loop. */
    method NextPiece(data: string) returns (step: Option<Piece>)
      ensures step == Decide(data, secrets)
    {
      var newline := Index(data, "\n");
      if newline >= 0 && newline <= CHUNK {
        return Some(Piece(data[..newline], data[..newline + 1]));
      }
      var longest := MaxSecretLength(secrets);
      if |data| <= CHUNK + longest {
        return None;
      }
      var chunk := NextStreamChunk(data, secrets);
      return Some(chunk);
    }

    /** `flush`: the rest becomes the last line. */
    method Flush() returns (ok: bool)
      requires Valid()
      modifies this
      ensures var lines := FormatAll(Texts(fed, secrets));
              && fed == old(fed)
              && ok == (|lines| <= accepts)
              && output == if ok then lines else lines[..accepts]
    {
      ghost var pieces := TextsOf(Pieces(fed, secrets));
      assert FormatAll(Texts(fed, secrets))[..|pieces|] == FormatAll(pieces);
      if failed {
        assert FormatAll(Texts(fed, secrets))[..accepts] == FormatAll(pieces)[..accepts];
        return false;
      }
      if |pending| == 0 {
        assert Texts(fed, secrets) == pieces;
        return true;
      }
      assert Texts(fed, secrets) == pieces + [pending];
      ghost var before := output;
      ok := WriteLine(pending);
      assert FormatAll(pieces + [pending]) == FormatAll(pieces) + [Format(pending)];
      pending := "";
    }
  }

  lemma Unfold(pending: string, secrets: seq<string>)
    ensures match Decide(pending, secrets)
            case None => Pieces(pending, secrets) == [] && Rest(pending, secrets) == pending
            case Some(piece) =>
              && Pieces(pending, secrets) == [piece] + Pieces(pending[|piece.raw|..], secrets)
              && Rest(pending, secrets) == Rest(pending[|piece.raw|..], secrets)
  {
  }

  function Joined(segments: seq<string>): string {
    if segments == [] then "" else Joined(segments[..|segments| - 1]) + segments[|segments| - 1]
  }

  /** However a stream is cut into writes, and whenever its writer fails, the same
      lines come out, in the same order. */
  method Copy(name: string, secrets: seq<string>, redact: string -> string, accepts: nat, segments: seq<string>) returns (output: seq<string>, ok: bool)
    ensures var texts := Texts(Joined(segments), secrets);
            && ok == (|texts| <= accepts)
            && |output| == (if ok then |texts| else accepts)
            && forall i | 0 <= i < |output| :: output[i] == "[" + name + "] " + redact(texts[i]) + "\n"
  {
    var stream := new ReadableStream(name, secrets, redact, accepts);
    for i := 0 to |segments|
      invariant stream.Valid() && fresh(stream) && stream.fed == Joined(segments[..i])
      invariant stream.name == name && stream.secrets == secrets && stream.redact == redact && stream.accepts == accepts
    {
      assert segments[..i + 1][..i] == segments[..i];
      var _, _ := stream.Write(segments[i]);
    }
    assert segments[..|segments|] == segments;
    ok := stream.Flush();
    output := stream.output;
  }
}
