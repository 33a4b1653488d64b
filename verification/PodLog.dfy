/** Collecting a Pod's log over interrupted sessions: each line is stored exactly
    once, within a byte quota, and each protocol line queues one worker event. Bytes
    are held as characters and instants as integers. */
module PodLog {
  import opened Wrappers
  import opened LogTail

  const MARKER := "[simpleswe: log truncated at byte quota]\n"

  // --------------------------------------------------------------- lines and cursors

  /** One timestamped line: its instant, the text the instant was written as, all its
      bytes, and whether it carries a valid worker event. */
  datatype Line = Line(at: int, text: string, raw: string, event: bool)

  /** The last accepted line: its instant and its ordinal among lines of its text. */
  datatype Cursor = Cursor(last: Option<int>, ordinal: nat)

  const START := Cursor(None, 0)

  /** A Pod writes instants in order, and a text stands for one instant. */
  ghost predicate IsLog(log: seq<Line>) {
    && (forall i, j | 0 <= i <= j < |log| :: log[i].at <= log[j].at)
    && (forall i, j | 0 <= i < |log| && 0 <= j < |log| && log[i].text == log[j].text :: log[i].at == log[j].at)
  }

  /** Equal instants are written alike. */
  ghost predicate Canonical(log: seq<Line>) {
    forall i, j | 0 <= i < |log| && 0 <= j < |log| && log[i].at == log[j].at :: log[i].text == log[j].text
  }

  /** The ordinal a session that began at `from` gives to line `i`. */
  function Ordinal(log: seq<Line>, from: nat, i: nat): (n: nat)
    requires from <= i < |log|
    ensures n >= 1
  {
    1 + Seen(log, from, i, log[i].text)
  }

  /** How many lines of [from, to) have this text. */
  function Seen(log: seq<Line>, from: nat, end: nat, text: string): nat
    requires from <= end <= |log|
    decreases end - from
  {
    if from == end then 0 else Seen(log, from, end - 1, text) + if log[end - 1].text == text then 1 else 0
  }

  /** The duplicate test of `AppendPodLog`. */
  predicate Duplicate(c: Cursor, at: int, ordinal: nat) {
    c.last.Some? && (at < c.last.value || (at == c.last.value && ordinal <= c.ordinal))
  }

  /** What a collector has taken in: line indexes in order of acceptance, and its cursor. */
  datatype Taken = Taken(accepted: seq<nat>, cursor: Cursor)

  function Take(t: Taken, log: seq<Line>, from: nat, i: nat): Taken
    requires from <= i < |log|
  {
    var ordinal := Ordinal(log, from, i);
    if Duplicate(t.cursor, log[i].at, ordinal) then t
    else Taken(t.accepted + [i], Cursor(Some(log[i].at), ordinal))
  }

  /** A session reads whole lines [from, to). */
  function Session(t: Taken, log: seq<Line>, from: nat, end: nat): Taken
    requires from <= end <= |log|
    decreases end - from
  {
    if from == end then t else Take(Session(t, log, from, end - 1), log, from, end - 1)
  }

  /** A reconnect starts at or before the first line at the cursor's instant. */
  ghost predicate InTime(log: seq<Line>, c: Cursor, from: nat) {
    if c.last.None? then from == 0 else forall j | 0 <= j < |log| && log[j].at == c.last.value :: from <= j
  }

  datatype Span = Span(from: nat, end: nat)

  function Collect(t: Taken, log: seq<Line>, sessions: seq<Span>): Taken
    requires forall s | s in sessions :: s.from <= s.end <= |log|
    decreases |sessions|
  {
    if sessions == [] then t else Collect(Session(t, log, sessions[0].from, sessions[0].end), log, sessions[1..])
  }

  /** All sessions lie inside the log and restart in time. */
  ghost predicate ValidSessions(t: Taken, log: seq<Line>, sessions: seq<Span>)
    decreases |sessions|
  {
    sessions != [] ==>
      && sessions[0].from <= sessions[0].end <= |log| && InTime(log, t.cursor, sessions[0].from)
      && ValidSessions(Session(t, log, sessions[0].from, sessions[0].end), log, sessions[1..])
  }

  function Furthest(n: nat, sessions: seq<Span>): (m: nat)
    ensures m >= n
    decreases |sessions|
  {
    if sessions == [] then n else Furthest(if n < sessions[0].end then sessions[0].end else n, sessions[1..])
  }

  // ------------------------------------------------------------------- exactly once

  function Upto(n: nat): seq<nat> {
    seq(n, i => i)
  }

  /** The collector that has stored exactly the first `n` lines. */
  function Exactly(log: seq<Line>, n: nat): Taken
    requires n <= |log|
  {
    Taken(Upto(n), if n == 0 then START else Cursor(Some(log[n - 1].at), Ordinal(log, 0, n - 1)))
  }

  lemma {:induction false} SeenSplit(log: seq<Line>, from: nat, mid: nat, end: nat, text: string)
    requires from <= mid <= end <= |log|
    ensures Seen(log, from, end, text) == Seen(log, from, mid, text) + Seen(log, mid, end, text)
    decreases end - mid
  {
    if mid < end {
      SeenSplit(log, from, mid, end - 1, text);
    }
  }

  lemma {:induction false} SeenNone(log: seq<Line>, from: nat, end: nat, text: string)
    requires from <= end <= |log| && forall j | from <= j < end :: log[j].text != text
    ensures Seen(log, from, end, text) == 0
    decreases end - from
  {
    if from < end {
      SeenNone(log, from, end - 1, text);
    }
  }

  /** A session that began no later than the first line of a text counts all of them. */
  lemma OrdinalFromStart(log: seq<Line>, from: nat, i: nat)
    requires from <= i < |log| && forall j | 0 <= j < |log| && log[j].text == log[i].text :: from <= j
    ensures Ordinal(log, from, i) == Ordinal(log, 0, i)
  {
    SeenSplit(log, 0, from, i, log[i].text);
    SeenNone(log, 0, from, log[i].text);
  }

  lemma OrdinalsClimb(log: seq<Line>, i: nat, j: nat)
    requires i < j < |log| && log[i].text == log[j].text
    ensures Ordinal(log, 0, i) < Ordinal(log, 0, j)
  {
    SeenSplit(log, 0, i + 1, j, log[i].text);
  }

  /** One session from an exact collector: lines before `n` are duplicates, the rest are
      accepted in order. */
  lemma {:induction false} SessionIsExact(log: seq<Line>, n: nat, from: nat, end: nat)
    requires IsLog(log) && Canonical(log) && n <= |log| && from <= end <= |log|
    requires InTime(log, Exactly(log, n).cursor, from)
    ensures Session(Exactly(log, n), log, from, end) == Exactly(log, if n < end then end else n)
    decreases end - from
  {
    hide Take, Exactly, IsLog, Canonical;
    StartsWithin(log, n, from);
    if from < end {
      var i := end - 1;
      SessionIsExact(log, n, from, i);
      TakeIsExact(log, n, from, i);
    }
  }

  lemma StartsWithin(log: seq<Line>, n: nat, from: nat)
    requires n <= |log| && InTime(log, Exactly(log, n).cursor, from)
    ensures from <= n
  {
    assert n > 0 ==> log[n - 1].at == Exactly(log, n).cursor.last.value;
  }

  /** The next line of such a session: a duplicate before `n`, accepted from `n` on. */
  lemma TakeIsExact(log: seq<Line>, n: nat, from: nat, i: nat)
    requires IsLog(log) && Canonical(log) && n <= |log| && from <= i < |log|
    requires InTime(log, Exactly(log, n).cursor, from)
    ensures Take(Exactly(log, if n < i then i else n), log, from, i) == Exactly(log, if n < i + 1 then i + 1 else n)
  {
    hide Seen;
    if n == 0 || log[i].at >= log[n - 1].at {
      OrdinalInTime(log, n, from, i);
    }
    if i < n {
      if log[i].at == log[n - 1].at && i < n - 1 {
        OrdinalsClimb(log, i, n - 1);
      }
    } else {
      if i > 0 && log[i].at == log[i - 1].at {
        OrdinalsClimb(log, i - 1, i);
      }
      assert Upto(i + 1) == Upto(i) + [i];
    }
  }

  /** A session that restarted in time has seen every line of the instants that matter. */
  lemma OrdinalInTime(log: seq<Line>, n: nat, from: nat, i: nat)
    requires IsLog(log) && Canonical(log) && n <= |log| && from <= i < |log|
    requires InTime(log, Exactly(log, n).cursor, from) && (n == 0 || log[i].at >= log[n - 1].at)
    ensures Ordinal(log, from, i) == Ordinal(log, 0, i)
  {
    forall j | 0 <= j < |log| && log[j].text == log[i].text ensures from <= j {
      assert log[j].at == log[i].at;
      assert n > 0 && j < n ==> log[j].at == log[n - 1].at;
    }
    OrdinalFromStart(log, from, i);
  }

  lemma {:induction false} SessionsAreExact(log: seq<Line>, n: nat, sessions: seq<Span>)
    requires IsLog(log) && Canonical(log) && n <= |log| && ValidSessions(Exactly(log, n), log, sessions)
    ensures forall s | s in sessions :: s.from <= s.end <= |log|
    ensures Furthest(n, sessions) <= |log| && Collect(Exactly(log, n), log, sessions) == Exactly(log, Furthest(n, sessions))
    decreases |sessions|
  {
    if sessions != [] {
      var s := sessions[0];
      SessionIsExact(log, n, s.from, s.end);
      SessionsAreExact(log, if n < s.end then s.end else n, sessions[1..]);
    }
  }

  /** For a log whose equal instants are written alike, however it is cut into sessions
      that restart in time, exactly the longest prefix ever read is accepted, each line
      once and in order - and only for such a log. */
  lemma ExactlyOnceIffCanonical(log: seq<Line>)
    requires IsLog(log)
    ensures Canonical(log) <==> AlwaysExact(log)
  {
    if Canonical(log) {
      forall sessions | ValidSessions(Taken([], START), log, sessions)
        ensures ExactFor(log, sessions)
      {
        assert Exactly(log, 0) == Taken([], START);
        SessionsAreExact(log, 0, sessions);
      }
    } else if AlwaysExact(log) {
      var whole := [Span(0, |log|)];
      assert whole[1..] == [];
      assert ValidSessions(Taken([], START), log, whole);
      assert ExactFor(log, whole) && Furthest(0, whole) == |log|;
      assert Collect(Taken([], START), log, whole) == Session(Taken([], START), log, 0, |log|);
      WholeSessionNeedsCanonical(log);
      assert false;
    }
  }

  ghost predicate ExactFor(log: seq<Line>, sessions: seq<Span>) {
    && (forall s | s in sessions :: s.from <= s.end <= |log|)
    && Collect(Taken([], START), log, sessions).accepted == Upto(Furthest(0, sessions))
  }

  ghost predicate AlwaysExact(log: seq<Line>) {
    forall sessions | ValidSessions(Taken([], START), log, sessions) :: ExactFor(log, sessions)
  }

  lemma {:induction false} AcceptsAtMost(log: seq<Line>, end: nat)
    requires end <= |log|
    ensures var t := Session(Taken([], START), log, 0, end);
            |t.accepted| <= end && (t.accepted == Upto(end) ==> t == Exactly(log, end))
  {
    if 0 < end {
      AcceptsAtMost(log, end - 1);
      assert Upto(end)[..end - 1] == Upto(end - 1);
    }
  }

  /** A session that accepts a prefix accepted every shorter one. */
  lemma {:induction false} AcceptedAlready(log: seq<Line>, i: nat, end: nat)
    requires i <= end <= |log| && Session(Taken([], START), log, 0, end).accepted == Upto(end)
    ensures Session(Taken([], START), log, 0, i).accepted == Upto(i)
    decreases end - i
  {
    if i < end {
      AcceptsAtMost(log, end - 1);
      assert Upto(end)[..end - 1] == Upto(end - 1);
      AcceptedAlready(log, i, end - 1);
    }
  }

  /** In a log with an instant written in two ways, the first line of the second text is
      taken for a duplicate. */
  lemma WholeSessionNeedsCanonical(log: seq<Line>)
    requires IsLog(log) && Session(Taken([], START), log, 0, |log|).accepted == Upto(|log|)
    ensures Canonical(log)
  {
    hide Session, Upto, IsLog;
    forall i: nat, j: nat | i < j < |log| && log[i].at == log[j].at ensures log[i].text == log[j].text {
      SameInstantSameText(log, i, j);
    }
  }

  lemma {:induction false} SameInstantSameText(log: seq<Line>, i: nat, j: nat)
    requires IsLog(log) && Session(Taken([], START), log, 0, |log|).accepted == Upto(|log|)
    requires i < j < |log| && log[i].at == log[j].at
    ensures log[i].text == log[j].text
    decreases j
  {
    assert forall k | i <= k <= j :: log[k].at == log[i].at;
    forall k | i < k < j ensures log[k].text == log[i].text {
      SameInstantSameText(log, i, k);
    }
    if log[j].text != log[i].text {
      // Lines of the second text can only have come before line i, at the same instant.
      forall k | 0 <= k < i ensures log[k].text != log[j].text {
        if log[k].text == log[j].text {
          assert log[k].at == log[j].at;
          SameInstantSameText(log, k, i);
        }
      }
      SeenNone(log, 0, j, log[j].text);
      AcceptedAlready(log, j + 1, |log|);
      AcceptedAlready(log, j, |log|);
      AcceptsAtMost(log, j);
      assert false;
    }
  }

  // -------------------------------------------------------------------- worker events

  /** The identity of a worker event within its Pod. */
  datatype EventId = EventId(text: string, ordinal: nat)

  /** The events of the protocol lines among the first `n`, in order. */
  function EventIds(log: seq<Line>, n: nat): seq<EventId>
    requires n <= |log|
  {
    if n == 0 then [] else EventIds(log, n - 1) + if log[n - 1].event then [EventId(log[n - 1].text, Ordinal(log, 0, n - 1))] else []
  }

  function ProtocolLines(log: seq<Line>, n: nat): nat
    requires n <= |log|
  {
    if n == 0 then 0 else ProtocolLines(log, n - 1) + if log[n - 1].event then 1 else 0
  }

  /** No two lines have the same event identity. */
  lemma {:induction false} EventIdsAreNew(log: seq<Line>, n: nat, i: nat)
    requires n <= i < |log|
    ensures EventId(log[i].text, Ordinal(log, 0, i)) !in EventIds(log, n)
  {
    if n > 0 {
      EventIdsAreNew(log, n - 1, i);
      if log[n - 1].text == log[i].text {
        OrdinalsClimb(log, n - 1, i);
      }
    }
  }

  lemma {:induction false} OneEventPerProtocolLine(log: seq<Line>, n: nat)
    requires n <= |log|
    ensures |EventIds(log, n)| == ProtocolLines(log, n)
    ensures forall a, b | 0 <= a < b < |EventIds(log, n)| :: EventIds(log, n)[a] != EventIds(log, n)[b]
  {
    if n > 0 {
      OneEventPerProtocolLine(log, n - 1);
      EventIdsAreNew(log, n - 1, n - 1);
    }
  }

  function RawOf(log: seq<Line>, n: nat): string
    requires n <= |log|
  {
    if n == 0 then "" else RawOf(log, n - 1) + log[n - 1].raw
  }
}
