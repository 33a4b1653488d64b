/** The durable log of one attempt: chunks under a byte quota, filled by the Pod log
    collector. */
module LogStorage {
  import opened Wrappers
  import opened LogTail
  import opened PodLog

  /** A stored chunk; its sequence number orders it. */
  datatype Chunk = Chunk(sequence: nat, content: string)

  function Contents(chunks: seq<Chunk>): seq<string> {
    seq(|chunks|, i requires 0 <= i < |chunks| => chunks[i].content)
  }

  function Text(chunks: seq<Chunk>): string {
    Concat(Contents(chunks))
  }

  /** What a quota leaves of the raw bytes: all of them, or their head and the marker. */
  function Stored(raw: string, quota: nat): string
    requires quota >= |MARKER|
  {
    if |raw| <= quota then raw else raw[..quota - |MARKER|] + MARKER
  }

  predicate ChunksOk(chunks: seq<Chunk>, chunkBytes: nat) {
    && (forall i | 0 <= i < |chunks| :: 0 < |chunks[i].content| <= chunkBytes)
    && (forall i, j | 0 <= i < j < |chunks| :: chunks[i].sequence < chunks[j].sequence)
  }

  lemma TextAppend(a: seq<Chunk>, b: seq<Chunk>)
    ensures Text(a + b) == Text(a) + Text(b)
  {
    assert Contents(a + b) == Contents(a) + Contents(b);
    ConcatAppend(Contents(a), Contents(b));
  }

  lemma EmptyText()
    ensures Text([]) == ""
  {
    assert Contents([]) == [];
  }

  /** What the quota leaves when more bytes arrive. */
  lemma StoredGrows(raw: string, content: string, quota: nat)
    requires quota >= |MARKER|
    ensures var all, keep := raw + content, quota - |MARKER| - |raw|;
            && (|raw| > quota ==> Stored(all, quota) == Stored(raw, quota))
            && (|all| <= quota ==> Stored(all, quota) == raw + content)
            && (|raw| <= quota < |all| ==>
                  Stored(all, quota) == (if keep < 0 then raw[..|raw| + keep] else raw + content[..keep]) + MARKER)
  {
    var all, head := raw + content, quota - |MARKER|;
    if head <= |raw| {
      assert all[..head] == raw[..head];
    } else if head <= |all| {
      assert all[..head] == raw + content[..head - |raw|];
    }
  }

  lemma StoredShort(raw: string, quota: nat)
    requires quota >= |MARKER|
    ensures |raw| <= quota ==> Stored(raw, quota) == raw
    ensures |Stored(raw, quota)| <= quota
  {
  }

  lemma TextOfOne(c: Chunk)
    ensures Text([c]) == c.content
  {
    var parts := [c.content];
    assert Contents([c]) == parts && parts[1..] == [];
    assert Concat(parts) == c.content + Concat(parts[1..]);
  }

  lemma TextPush(chunks: seq<Chunk>, c: Chunk)
    ensures Text(chunks + [c]) == Text(chunks) + c.content
  {
    TextAppend(chunks, [c]);
    TextOfOne(c);
  }

  lemma TextOfLast(chunks: seq<Chunk>)
    requires chunks != []
    ensures Text(chunks) == Text(chunks[..|chunks| - 1]) + chunks[|chunks| - 1].content
  {
    assert chunks == chunks[..|chunks| - 1] + [chunks[|chunks| - 1]];
    TextPush(chunks[..|chunks| - 1], chunks[|chunks| - 1]);
  }

  class AttemptLog {
    const quota: nat
    const chunkBytes: nat
    var chunks: seq<Chunk>
    var total: int
    var truncated: bool
    var cursor: Cursor
    var outbox: seq<EventId>
    var observed: bool
    ghost var raw: string      // all bytes of accepted lines
    ghost var queued: seq<Option<EventId>>  // the event each accepted line carried

    constructor (quota: nat, chunkBytes: nat)
      ensures Valid() && raw == "" && cursor == START && outbox == [] && queued == []
      ensures this.quota == quota && this.chunkBytes == chunkBytes
    {
      this.quota, this.chunkBytes := quota, chunkBytes;
      chunks, total, truncated, cursor, outbox, observed, raw, queued := [], 0, false, START, [], false, "", [];
      new;
      assert Contents([]) == [];
    }

    predicate Configured()
    {
      chunkBytes > 0 && quota >= |MARKER|
    }

    /** The stored text is what the quota leaves of the accepted bytes, and the counters
        agree with it. */
    ghost predicate Valid()
      reads this
    {
      && ChunksOk(chunks, chunkBytes)
      && total == |Text(chunks)|
      && (truncated <==> observed)
      && (if Configured() then Text(chunks) == Stored(raw, quota) && (truncated <==> |raw| > quota)
          else chunks == [] && raw == "" && !truncated)
    }

    /** `appendLogBytesTx`: the bytes in pieces of at most `chunkBytes`, numbered on. */
    method AppendLogBytes(bytes: string)
      requires chunkBytes > 0 && ChunksOk(chunks, chunkBytes)
      modifies this`chunks
      ensures ChunksOk(chunks, chunkBytes) && Text(chunks) == Text(old(chunks)) + bytes
    {
      var sequence: nat := if chunks == [] then 0 else chunks[|chunks| - 1].sequence;
      var content := bytes;
      assert Text(chunks) + content == Text(old(chunks)) + bytes;
      while |content| > 0
        invariant ChunksOk(chunks, chunkBytes) && (chunks == [] || chunks[|chunks| - 1].sequence == sequence)
        invariant Text(chunks) + content == Text(old(chunks)) + bytes
        decreases |content|
      {
        var size := if |content| < chunkBytes then |content| else chunkBytes;
        sequence := sequence + 1;
        TextPush(chunks, Chunk(sequence, content[..size]));
        assert content == content[..size] + content[size..];
        chunks := chunks + [Chunk(sequence, content[..size])];
        content := content[size..];
      }
    }

    /** `trimLogTailTx`: the newest chunks lose `bytes` bytes at the end. */
    method TrimLogTail(bytes: nat)
      requires ChunksOk(chunks, chunkBytes) && bytes <= |Text(chunks)|
      modifies this`chunks
      ensures ChunksOk(chunks, chunkBytes)
      ensures Text(chunks) == Text(old(chunks))[..|Text(old(chunks))| - bytes]
    {
      ghost var before := Text(chunks);
      var left := bytes;
      EmptyText();
      while left > 0 && |chunks| > 0
        invariant ChunksOk(chunks, chunkBytes) && 0 <= left <= |Text(chunks)|
        invariant Text(chunks)[..|Text(chunks)| - left] == before[..|before| - bytes]
        decreases left
      {
        var last := |chunks| - 1;
        var newest := chunks[last];
        TextOfLast(chunks);
        ghost var keep := Text(chunks)[..|Text(chunks)| - left];
        if left >= |newest.content| {
          assert Text(chunks[..last])[..|Text(chunks[..last])| - (left - |newest.content|)] == keep;
          chunks := chunks[..last];
          left := left - |newest.content|;
        } else {
          var cut := newest.(content := newest.content[..|newest.content| - left]);
          TextPush(chunks[..last], cut);
          assert Text(chunks[..last]) + cut.content == keep;
          chunks := chunks[..last] + [cut];
          left := 0;
        }
      }
    }

    /** `AppendPodLog`. `appendable` says that the attempt is current and its logs are
        not exhausted. */
    method AppendPodLog(appendable: bool, at: int, ordinal: nat, content: string, event: Option<EventId>) returns (r: Result<bool>)
      requires Valid()
      modifies this
      ensures Valid()
      ensures !Configured() ==> r == Err(Invalid)
      ensures Configured() && !appendable ==> r == Err(Conflict)
      ensures Configured() && appendable ==> r == Ok(Duplicate(old(cursor), at, ordinal))
      ensures if r == Ok(false) then
                && raw == old(raw) + content && cursor == Cursor(Some(at), ordinal) && queued == old(queued) + [event]
                && outbox == (if event.Some? && event.value !in old(outbox) then old(outbox) + [event.value] else old(outbox))
              else unchanged(this)
    {
      if !Configured() {
        return Err(Invalid);
      }
      if !appendable {
        return Err(Conflict);
      }
      if Duplicate(cursor, at, ordinal) {
        return Ok(true);
      }
      StoreBytes(content);
      cursor := Cursor(Some(at), ordinal);
      queued := queued + [event];
      if event.Some? && event.value !in outbox {
        outbox := outbox + [event.value];
      }
      return Ok(false);
    }

    /** The quota arithmetic of `AppendPodLog`. */
    method StoreBytes(content: string)
      requires Valid() && Configured()
      modifies this`chunks, this`total, this`truncated, this`observed, this`raw
      ensures Valid() && raw == old(raw) + content
    {
      hide ChunksOk, Text, Stored;
      StoredGrows(raw, content, quota);
      StoredShort(raw, quota);
      StoredShort(raw + content, quota);
      raw := raw + content;
      if truncated {
        return;
      }
      if total + |content| <= quota {
        AppendLogBytes(content);
        total := total + |content|;
        return;
      }
      var keep := quota - |MARKER| - total;
      if keep < 0 {
        TrimLogTail(-keep);
        total := total + keep;
        keep := 0;
        AppendLogBytes(MARKER);
      } else {
        assert Text(chunks) + (content[..keep] + MARKER) == Text(chunks) + content[..keep] + MARKER;
        AppendLogBytes(content[..keep] + MARKER);
      }
      truncated, observed := true, true;
      total := total + keep + |MARKER|;
      assert Text(chunks) == Stored(raw, quota);
    }

    /** `readPodLogStream` over the whole lines [from, end) of a log: the ordinals of the
        session count lines by the text of their instant. */
    method ReadPodLogStream(log: seq<Line>, from: nat, end: nat, appendable: bool) returns (completed: bool)
      requires Valid() && from <= end <= |log|
      modifies this
      ensures Valid() && completed == (from == end || (Configured() && appendable))
      ensures !completed ==> unchanged(this)
      ensures completed ==> SessionEffect(old(raw), old(cursor), old(queued), log, from, end) == (raw, cursor, queued)
      ensures completed && AllNew(old(outbox), old(queued)) ==> AllNew(outbox, queued)
    {
      hide ChunksOk, Text, Stored, Duplicate;
      var ordinals: map<string, nat> := map[];
      for i := from to end
        invariant Valid() && (i > from ==> Configured() && appendable)
        invariant i == from ==> unchanged(this)
        invariant forall text :: (if text in ordinals then ordinals[text] else 0) == Seen(log, from, i, text)
        invariant SessionEffect(old(raw), old(cursor), old(queued), log, from, i) == (raw, cursor, queued)
        invariant AllNew(old(outbox), old(queued)) ==> AllNew(outbox, queued)
      {
        var line := log[i];
        ordinals := ordinals[line.text := (if line.text in ordinals then ordinals[line.text] else 0) + 1];
        var ordinal := ordinals[line.text];
        var event := if line.event then Some(EventId(line.text, ordinal)) else None;
        var r := AppendPodLog(appendable, line.at, ordinal, line.raw, event);
        if r.Err? {
          return false;
        }
      }
      return true;
    }
  }

  /** The bytes, cursor and queued events of a session, as a function of its lines. */
  ghost function SessionEffect(raw: string, c: Cursor, queued: seq<Option<EventId>>, log: seq<Line>, from: nat, end: nat): (string, Cursor, seq<Option<EventId>>)
    requires from <= end <= |log|
    decreases end - from
  {
    if from == end then (raw, c, queued)
    else
      var (b, d, q) := SessionEffect(raw, c, queued, log, from, end - 1);
      var line, ordinal := log[end - 1], Ordinal(log, from, end - 1);
      if Duplicate(d, line.at, ordinal) then (b, d, q)
      else (b + line.raw, Cursor(Some(line.at), ordinal), q + [if line.event then Some(EventId(line.text, ordinal)) else None])
  }

  /** The outbox holds the queued events, each once, in order. */
  ghost predicate AllNew(outbox: seq<EventId>, queued: seq<Option<EventId>>) {
    outbox == Deduplicated(queued)
  }

  ghost function Deduplicated(queued: seq<Option<EventId>>): seq<EventId> {
    if queued == [] then []
    else
      var rest, last := Deduplicated(queued[..|queued| - 1]), queued[|queued| - 1];
      if last.Some? && last.value !in rest then rest + [last.value] else rest
  }

  // ------------------------------------------------------------------ main results

  /** The event each of the first `n` lines carried. */
  ghost function QueuedOf(log: seq<Line>, n: nat): seq<Option<EventId>>
    requires n <= |log|
  {
    if n == 0 then []
    else QueuedOf(log, n - 1) + [if log[n - 1].event then Some(EventId(log[n - 1].text, Ordinal(log, 0, n - 1))) else None]
  }

  ghost function EffectOf(log: seq<Line>, n: nat): (string, Cursor, seq<Option<EventId>>)
    requires n <= |log|
  {
    (RawOf(log, n), Exactly(log, n).cursor, QueuedOf(log, n))
  }

  /** The bytes and events of a session follow its accepted lines. */
  lemma {:induction false} EffectIsExact(log: seq<Line>, n: nat, from: nat, end: nat)
    requires IsLog(log) && Canonical(log) && n <= |log| && from <= end <= |log|
    requires InTime(log, Exactly(log, n).cursor, from)
    ensures var before := EffectOf(log, n);
            SessionEffect(before.0, before.1, before.2, log, from, end) == EffectOf(log, if n < end then end else n)
    decreases end - from
  {
    if from < end {
      var i := end - 1;
      EffectIsExact(log, n, from, i);
      SessionIsExact(log, n, from, i);
      SessionIsExact(log, n, from, end);
      assert |Upto(end)| == end && |Upto(i)| == i && |Upto(n)| == n;
    }
  }

  lemma {:induction false} DeduplicatedIsEventIds(log: seq<Line>, n: nat)
    requires n <= |log|
    ensures Deduplicated(QueuedOf(log, n)) == EventIds(log, n)
  {
    if n > 0 {
      DeduplicatedIsEventIds(log, n - 1);
      EventIdsAreNew(log, n - 1, n - 1);
      assert QueuedOf(log, n)[..n - 1] == QueuedOf(log, n - 1) by { QueuedLength(log, n - 1); }
    }
  }

  lemma QueuedLength(log: seq<Line>, n: nat)
    requires n <= |log|
    ensures |QueuedOf(log, n)| == n
  {
  }

  /** Over any sessions that restart in time, the stored log is what the quota leaves
      of the longest prefix ever read, each line once and in order, and the outbox has
      one event per protocol line of that prefix - also past the quota. */
  method CollectPodLogs(log: seq<Line>, sessions: seq<Span>, quota: nat, chunkBytes: nat) returns (store: AttemptLog)
    requires IsLog(log) && Canonical(log) && ValidSessions(Taken([], START), log, sessions)
    requires chunkBytes > 0 && quota >= |MARKER|
    ensures Furthest(0, sessions) <= |log| && store.quota == quota && store.chunkBytes == chunkBytes
    ensures store.Valid() && store.raw == RawOf(log, Furthest(0, sessions))
    ensures Text(store.chunks) == Stored(RawOf(log, Furthest(0, sessions)), quota) && store.total == |Text(store.chunks)|
    ensures store.outbox == EventIds(log, Furthest(0, sessions)) && |store.outbox| == ProtocolLines(log, Furthest(0, sessions))
  {
    store := new AttemptLog(quota, chunkBytes);
    ghost var n: nat := 0;
    ghost var rest := sessions;
    assert Exactly(log, 0) == Taken([], START);
    SessionsAreExact(log, 0, sessions);
    for i := 0 to |sessions|
      invariant n <= |log| && rest == sessions[i..]
      invariant ValidSessions(Exactly(log, n), log, rest) && Furthest(n, rest) == Furthest(0, sessions)
      invariant fresh(store) && store.Valid() && store.quota == quota && store.chunkBytes == chunkBytes
      invariant (store.raw, store.cursor, store.queued) == EffectOf(log, n) && AllNew(store.outbox, store.queued)
    {
      var s := sessions[i];
      assert rest[0] == s && rest[1..] == sessions[i + 1..];
      assert s.from <= s.end <= |log| by { hide Session; }
      EffectIsExact(log, n, s.from, s.end);
      SessionIsExact(log, n, s.from, s.end);
      var _ := store.ReadPodLogStream(log, s.from, s.end, true);
      n, rest := if n < s.end then s.end else n, rest[1..];
    }
    assert Furthest(n, []) == n;
    DeduplicatedIsEventIds(log, n);
    OneEventPerProtocolLine(log, n);
  }

  /** The tail reader returns the last lines of the stored log. */
  lemma TailOfStoredLog(store: AttemptLog, lines: nat)
    requires store.Valid() && store.Configured()
    ensures ReadTail(Contents(store.chunks), lines) == LastLines(Stored(store.raw, store.quota), lines)
  {
    ReadTailIsLastLines(Contents(store.chunks), lines);
  }
}
