/** Reading the last lines of a chunked log, newest chunk first. Bytes are held as
    characters. */
module LogTail {

  // ------------------------------------------------------------- the simple form

  /** The lines of a text; each keeps its newline, only the last may lack one. */
  function Lines(s: string): (lines: seq<string>)
    ensures s == "" <==> lines == []
  {
    if s == "" then []
    else
      var rest := Lines(s[1..]);
      if s[0] == '\n' || rest == [] then [[s[0]]] + rest
      else [[s[0]] + rest[0]] + rest[1..]
  }

  function Concat(parts: seq<string>): string {
    if parts == [] then "" else parts[0] + Concat(parts[1..])
  }

  /** The text of the last `n` lines. */
  function LastLines(s: string, n: nat): string {
    var lines := Lines(s);
    if |lines| <= n then s else Concat(lines[|lines| - n..])
  }

  function Newlines(s: string): nat {
    if s == "" then 0 else (if s[0] == '\n' then 1 else 0) + Newlines(s[1..])
  }

  predicate EndsLine(s: string) {
    s != "" && s[|s| - 1] == '\n'
  }

  // ------------------------------------------------------------ lines and suffixes

  lemma {:induction false} ConcatOfLines(s: string)
    ensures Concat(Lines(s)) == s
  {
    if s != "" {
      ConcatOfLines(s[1..]);
      var rest := Lines(s[1..]);
      if s[0] == '\n' || rest == [] {
        assert ([[s[0]]] + rest)[1..] == rest;
      } else {
        assert ([[s[0]] + rest[0]] + rest[1..])[1..] == rest[1..];
      }
    }
  }

  /** Text in front changes only the first line. */
  lemma {:induction false} LinesOfSuffix(a: string, t: string)
    requires t != ""
    ensures var all, own := Lines(a + t), Lines(t);
            |all| >= |own| && all[|all| - |own| + 1..] == own[1..]
  {
    hide Lines;
    if a == "" {
      assert a + t == t;
    } else {
      LinesOfSuffix(a[1..], t);
      Prepend(a[0], a[1..] + t);
      assert a + t == [a[0]] + (a[1..] + t);
      var all, rest, own := Lines(a + t), Lines(a[1..] + t), Lines(t);
      assert all[|all| - |own| + 1..] == rest[|rest| - |own| + 1..];
    }
  }

  /** One more character in front: a line of its own, or part of the first line. */
  lemma Prepend(c: char, s: string)
    ensures var all, rest := Lines([c] + s), Lines(s);
            if c == '\n' || rest == [] then all == [[c]] + rest else all == [[c] + rest[0]] + rest[1..]
  {
    assert ([c] + s)[1..] == s;
  }

  /** A newline in front leaves the following lines whole. */
  lemma {:induction false} LinesAfterNewline(a: string, t: string)
    requires EndsLine(a)
    ensures Lines(a + t) == Lines(a) + Lines(t)
  {
    hide Lines;
    var c, rest := a[0], a[1..];
    Prepend(c, rest);
    Prepend(c, rest + t);
    assert a == [c] + rest && a + t == [c] + (rest + t);
    if |a| == 1 {
      assert rest == "" && rest + t == t;
    } else {
      LinesAfterNewline(rest, t);
      assert (Lines(rest) + Lines(t))[1..] == Lines(rest)[1..] + Lines(t);
    }
  }

  /** Every newline ends a line; an unfinished last line is one more. */
  lemma {:induction false} LineCount(s: string)
    ensures |Lines(s)| == Newlines(s) + if s != "" && !EndsLine(s) then 1 else 0
  {
    if |s| > 1 {
      LineCount(s[1..]);
    } else if |s| == 1 {
      assert s[1..] == "";
    }
  }

  lemma {:induction false} NewlinesOfConcat(a: string, b: string)
    ensures Newlines(a + b) == Newlines(a) + Newlines(b)
  {
    if a == "" {
      assert a + b == b;
    } else {
      NewlinesOfConcat(a[1..], b);
      assert (a + b)[1..] == a[1..] + b;
    }
  }

  /** A suffix with more than `n` lines holds the last `n` lines completely. */
  lemma SuffixSuffices(a: string, t: string, n: nat)
    requires |Lines(t)| > n
    ensures LastLines(a + t, n) == LastLines(t, n)
  {
    hide Lines, Concat;
    LinesOfSuffix(a, t);
    var all, own := Lines(a + t), Lines(t);
    assert all[|all| - n..] == all[|all| - |own| + 1..][|own| - 1 - n..];
    assert own[|own| - n..] == own[1..][|own| - 1 - n..];
  }

  // --------------------------------------------------------------- the fast forms

  /** `lastLines`: a backward scan for newlines that ignores a trailing one. */
  method ScanLastLines(content: string, lines: int) returns (tail: string)
    ensures tail == if lines <= 0 then "" else LastLines(content, lines)
  {
    hide ScanState, LastLines, Lines;
    if lines <= 0 {
      return "";
    }
    if content == "" {
      EmptyTail(lines);
      return "";
    }
    var index := |content| - 1;
    if content[index] == '\n' {
      index := index - 1;
    }
    var count := 0;
    ScanStart(content);
    while index >= 0
      invariant -1 <= index < |content| && 0 <= count < lines
      invariant ScanState(content, index, count)
      decreases index
    {
      ScanStep(content, index, count);
      if content[index] == '\n' {
        count := count + 1;
        if count == lines {
          return content[index + 1..];
        }
      }
      index := index - 1;
    }
    ScanEnd(content, count, lines);
    return content;
  }

  /** After `index`, the scan has passed `count` whole lines and is inside one more,
      unless it is still at the very end. */
  ghost predicate ScanState(content: string, index: int, count: int)
    requires -1 <= index < |content|
  {
    var suffix := content[index + 1..];
    if suffix == "" then count == 0 && index >= 0 && content[index] != '\n' else |Lines(suffix)| == count + 1
  }

  lemma ScanStart(content: string)
    requires content != ""
    ensures ScanState(content, if EndsLine(content) then |content| - 2 else |content| - 1, 0)
  {
    if EndsLine(content) {
      assert content[|content| - 1..] == ['\n'] + "";
      Prepend('\n', "");
    }
  }

  lemma ScanStep(content: string, index: int, count: int)
    requires 0 <= index < |content| && ScanState(content, index, count)
    ensures if content[index] == '\n' then ScanState(content, index - 1, count + 1) && LastLines(content, count + 1) == content[index + 1..]
            else ScanState(content, index - 1, count)
  {
    hide LastLines;
    var suffix := content[index + 1..];
    assert content[index - 1 + 1..] == [content[index]] + suffix;
    Prepend(content[index], suffix);
    if content[index] == '\n' {
      WholeLines(content, index);
    }
  }

  lemma ScanEnd(content: string, count: int, lines: int)
    requires content != "" && ScanState(content, -1, count) && count < lines
    ensures LastLines(content, lines) == content
  {
    assert content[0..] == content;
    FewLines(content, lines);
  }

  lemma EmptyTail(n: nat)
    ensures LastLines("", n) == ""
  {
  }

  lemma FewLines(s: string, n: nat)
    requires |Lines(s)| <= n
    ensures LastLines(s, n) == s
  {
  }

  lemma WholeLines(content: string, index: nat)
    requires index < |content| && content[index] == '\n'
    ensures LastLines(content, |Lines(content[index + 1..])|) == content[index + 1..]
  {
    var a, t := content[..index + 1], content[index + 1..];
    assert content == a + t;
    LinesAfterNewline(a, t);
    assert (Lines(a) + Lines(t))[|Lines(a)|..] == Lines(t);
    ConcatOfLines(t);
  }

  /** The text of the newest chunks that together hold enough newlines. `chunks` is in
      log order. */
  function EarlyStop(chunks: seq<string>, taken: string, required: nat): string
    decreases |chunks|
  {
    if chunks == [] then taken
    else
      var last := |chunks| - 1;
      var text := chunks[last] + taken;
      if Newlines(text) >= required then text else EarlyStop(chunks[..last], text, required)
  }

  /** One newline more if the newest chunk ends a line. */
  function Required(chunks: seq<string>, lines: nat): nat {
    lines + if chunks != [] && EndsLine(chunks[|chunks| - 1]) then 1 else 0
  }

  function ReadTail(chunks: seq<string>, lines: nat): string {
    if lines == 0 then "" else LastLines(EarlyStop(chunks, "", Required(chunks, lines)), lines)
  }

  /** `ReadLogTail`: chunks newest first, until enough newlines are seen. */
  method ReadLogTail(chunks: seq<string>, lines: nat) returns (tail: string)
    ensures tail == ReadTail(chunks, lines)
  {
    if lines == 0 {
      return "";
    }
    var reversed: seq<string> := [];
    var newlines, required, first := 0, lines, true;
    var next := |chunks|;
    ghost var text := "";
    ghost var done := false;
    assert chunks[..|chunks|] == chunks && chunks[|chunks|..] == [];
    while next > 0
      invariant 0 <= next <= |chunks| && |reversed| == |chunks| - next
      invariant forall j | 0 <= j < |reversed| :: reversed[j] == chunks[|chunks| - 1 - j]
      invariant text == Concat(chunks[next..]) && newlines == Newlines(text)
      invariant first <==> next == |chunks|
      invariant required == if first then lines else Required(chunks, lines)
      invariant EarlyStop(chunks, "", Required(chunks, lines)) == if done then text else EarlyStop(chunks[..next], text, Required(chunks, lines))
      invariant !done
    {
      next := next - 1;
      var chunk := chunks[next];
      assert chunks[next..] == [chunk] + chunks[next + 1..] && chunks[..next + 1][..next] == chunks[..next];
      NewlinesOfConcat(chunk, text);
      if first {
        first := false;
        if chunk != "" && chunk[|chunk| - 1] == '\n' {
          required := required + 1;
        }
      }
      text := chunk + text;
      reversed := reversed + [chunk];
      newlines := newlines + Newlines(chunk);
      if newlines >= required {
        done := true;
        break;
      }
    }
    var content := JoinReversed(reversed, chunks[next..]);
    tail := ScanLastLines(content, lines);
  }

  /** The fast form refines the simple one: the early stop returns the last lines of
      the whole log, provided the newest chunk is not empty. */
  lemma ReadTailIsLastLines(chunks: seq<string>, lines: nat)
    requires chunks != [] ==> chunks[|chunks| - 1] != ""
    ensures ReadTail(chunks, lines) == LastLines(Concat(chunks), lines)
  {
    hide Lines, LastLines, EarlyStop, Newlines;
    if lines == 0 {
      LastNoLines(Concat(chunks));
    } else if chunks == [] {
      EmptyReads(lines);
    } else {
      var last := chunks[|chunks| - 1];
      assert chunks == chunks[..|chunks| - 1] + [last];
      ConcatAppend(chunks[..|chunks| - 1], [last]);
      assert Concat([last]) == last;
      EarlyStopSuffices(chunks, "", lines);
      assert Concat(chunks) + "" == Concat(chunks);
    }
  }

  lemma EmptyReads(lines: nat)
    ensures EarlyStop([], "", Required([], lines)) == Concat([])
  {
  }

  lemma {:induction false} EarlyStopSuffices(chunks: seq<string>, taken: string, lines: nat)
    requires chunks != [] && lines > 0
    requires chunks[|chunks| - 1] + taken != ""
    ensures var required := lines + if EndsLine(chunks[|chunks| - 1] + taken) then 1 else 0;
            LastLines(EarlyStop(chunks, taken, required), lines) == LastLines(Concat(chunks) + taken, lines)
    decreases |chunks|
  {
    var last := |chunks| - 1;
    var text := chunks[last] + taken;
    var required := lines + if EndsLine(text) then 1 else 0;
    assert chunks == chunks[..last] + [chunks[last]];
    ConcatAppend(chunks[..last], [chunks[last]]);
    assert Concat([chunks[last]]) == chunks[last];
    var older := Concat(chunks[..last]);
    assert Concat(chunks) + taken == older + text;
    if Newlines(text) >= required {
      LineCount(text);
      SuffixSuffices(older, text, lines);
    } else if last == 0 {
      assert chunks[..0] == [] && "" + text == text;
    } else {
      EarlyStopSuffices(chunks[..last], text, lines);
    }
  }

  /** The write-back loop: oldest of the taken chunks first. */
  method JoinReversed(reversed: seq<string>, ghost parts: seq<string>) returns (content: string)
    requires |reversed| == |parts| && forall j | 0 <= j < |parts| :: reversed[j] == parts[|parts| - 1 - j]
    ensures content == Concat(parts)
  {
    content := "";
    var i := |reversed|;
    while i > 0
      invariant 0 <= i <= |reversed|
      invariant content == Concat(parts[..|parts| - i])
    {
      i := i - 1;
      var done := |parts| - i;
      assert parts[..done] == parts[..done - 1] + [parts[done - 1]];
      ConcatAppend(parts[..done - 1], [parts[done - 1]]);
      assert Concat([parts[done - 1]]) == parts[done - 1];
      content := content + reversed[i];
    }
    assert parts[..|parts|] == parts;
  }

  lemma {:induction false} ConcatAppend(s: seq<string>, t: seq<string>)
    ensures Concat(s + t) == Concat(s) + Concat(t)
  {
    if s == [] {
      assert s + t == t;
    } else {
      ConcatAppend(s[1..], t);
      assert (s + t)[1..] == s[1..] + t;
    }
  }

  lemma LastNoLines(s: string)
    ensures LastLines(s, 0) == ""
  {
    if s != "" {
      assert Lines(s)[|Lines(s)|..] == [];
    }
  }

  // ------------------------------------------------- why the newest chunk matters

  /** With an empty newest chunk the trailing newline is overlooked, and the reader stops
      inside a line: one line of "y", "x\n", "" is given as "x\n", not "yx\n". */
  lemma EmptyNewestChunkMisleads(y: char, x: char)
    requires y != '\n' && x != '\n'
    ensures ReadTail([[y], [x, '\n'], []], 1) == [x, '\n']
    ensures LastLines(Concat([[y], [x, '\n'], []]), 1) == [y, x, '\n']
  {
    var older, newer := [y], [x, '\n'];
    var chunks := [older, newer, []];
    assert "\n"[1..] == "" && newer[1..] == "\n" && [y, x, '\n'][1..] == newer;
    assert Lines("\n") == ["\n"];
    assert ["\n"][1..] == [] && [x] + "\n" == newer && Lines(newer) == [newer];
    assert [newer][1..] == [] && [y] + newer == [y, x, '\n'] && Lines([y, x, '\n']) == [[y, x, '\n']];
    assert chunks[..2] == [older, newer] && newer + "" == newer && "" + "" == "";
    assert Newlines("\n") == 1 && Newlines(newer) == 1;
    assert EarlyStop([older, newer], "", 1) == newer;
    assert chunks[1..] == [newer, []] && [newer, ""][1..] == [""] && Concat([""]) == "" && Concat([newer, ""]) == newer;
  }
}
