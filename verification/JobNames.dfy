/** Deterministic Job names: always a DNS label (RFC 1123, section 2.1), and injective
    in the task ID and the attempt number for canonical, untruncated task IDs. */
module JobNames {

  const LABEL_MAX := 63
  const HASH_LENGTH := 16

  predicate Letter(c: char) { 'a' <= c <= 'z' }

  predicate Digit(c: char) { '0' <= c <= '9' }

  predicate Alnum(c: char) { Letter(c) || Digit(c) }

  function LowerChar(c: char): char {
    if 'A' <= c <= 'Z' then c - 'A' + 'a' else c
  }

  function Lower(s: string): (t: string)
    ensures |t| == |s|
  {
    seq(|s|, i requires 0 <= i < |s| => LowerChar(s[i]))
  }

  /** A label: 1 to 63 letters, digits and dashes, starting and ending with no dash. */
  predicate DnsLabel(s: string) {
    && 1 <= |s| <= LABEL_MAX
    && (forall c | c in s :: Alnum(c) || c == '-')
    && s[0] != '-' && s[|s| - 1] != '-'
  }

  // ------------------------------------------------------------------- sanitising

  /** One character of the scan: an alphanumeric is kept, and a gap gives one dash. */
  function Push(out: string, c: char): string {
    if Alnum(c) then out + [c] else if out != "" && out[|out| - 1] == '-' then out else out + ['-']
  }

  function Scan(s: string): string {
    if s == "" then "" else Push(Scan(s[..|s| - 1]), s[|s| - 1])
  }

  function TrimLeft(s: string): string {
    if s != "" && s[0] == '-' then TrimLeft(s[1..]) else s
  }

  function TrimRight(s: string): string {
    if s != "" && s[|s| - 1] == '-' then TrimRight(s[..|s| - 1]) else s
  }

  function Sanitize(s: string): string {
    TrimRight(TrimLeft(Scan(Lower(s))))
  }

  predicate Spaced(s: string) {
    && (forall i | 0 <= i < |s| :: Alnum(s[i]) || s[i] == '-')
    && (forall i | 0 < i < |s| :: s[i - 1] != '-' || s[i] != '-')
  }

  /** Words of alphanumerics joined by single dashes. */
  predicate Clean(s: string) {
    Spaced(s) && (s != "" ==> s[0] != '-' && s[|s| - 1] != '-')
  }

  /** The alphanumerics of a text, in order. */
  function Kept(s: string): string {
    if s == "" then "" else Kept(s[..|s| - 1]) + if Alnum(s[|s| - 1]) then [s[|s| - 1]] else ""
  }

  lemma {:induction false} ScanIsSpaced(s: string)
    ensures Spaced(Scan(s)) && Kept(Scan(s)) == Kept(s)
  {
    if s != "" {
      ScanIsSpaced(s[..|s| - 1]);
      var out, c := Scan(s[..|s| - 1]), s[|s| - 1];
      assert (out + [c])[..|out|] == out && (out + ['-'])[..|out|] == out;
    }
  }

  lemma {:induction false} KeptOfTail(s: string)
    requires s != "" && s[0] == '-'
    ensures Kept(s[1..]) == Kept(s)
  {
    if |s| == 1 {
      assert s[..0] == "" && s[1..] == "";
    } else {
      KeptOfTail(s[..|s| - 1]);
      assert s[1..][..|s| - 2] == s[..|s| - 1][1..];
    }
  }

  lemma {:induction false} TrimLeftKeeps(s: string)
    requires Spaced(s)
    ensures Spaced(TrimLeft(s)) && Kept(TrimLeft(s)) == Kept(s) && (TrimLeft(s) != "" ==> TrimLeft(s)[0] != '-')
  {
    if s != "" && s[0] == '-' {
      KeptOfTail(s);
      TrimLeftKeeps(s[1..]);
    }
  }

  lemma {:induction false} TrimRightKeeps(s: string)
    requires Spaced(s)
    ensures Spaced(TrimRight(s)) && Kept(TrimRight(s)) == Kept(s) && TrimRight(s) <= s
    ensures TrimRight(s) != "" ==> TrimRight(s)[|TrimRight(s)| - 1] != '-'
  {
    if s != "" && s[|s| - 1] == '-' {
      TrimRightKeeps(s[..|s| - 1]);
    }
  }

  /** Sanitising yields clean text that keeps exactly the lower-cased alphanumerics. */
  lemma SanitizeIsClean(s: string)
    ensures Clean(Sanitize(s)) && Kept(Sanitize(s)) == Kept(Lower(s))
  {
    ScanIsSpaced(Lower(s));
    TrimLeftKeeps(Scan(Lower(s)));
    TrimRightKeeps(TrimLeft(Scan(Lower(s))));
  }

  lemma {:induction false} ScanOfSpaced(s: string)
    requires Spaced(s)
    ensures Scan(s) == s
  {
    if s != "" {
      var init := s[..|s| - 1];
      ScanOfSpaced(init);
      assert s[|s| - 1] == '-' ==> init == "" || init[|init| - 1] != '-';
      assert s == s[..|s| - 1] + [s[|s| - 1]];
    }
  }

  /** Clean text is left alone. */
  lemma SanitizeFixesClean(s: string)
    requires Clean(s)
    ensures Sanitize(s) == s
  {
    assert Lower(s) == s by {
      forall i | 0 <= i < |s| ensures Lower(s)[i] == s[i] {
      }
    }
    ScanOfSpaced(s);
  }

  /** `sanitizeName` as the source runs it: one pass with a dash flag. */
  method SanitizeName(value: string) returns (result: string)
    ensures result == Sanitize(value)
  {
    var dash := false;
    var out := "";
    var lower := Lower(value);
    for i := 0 to |lower|
      invariant out == Scan(lower[..i]) && dash == (out != "" && out[|out| - 1] == '-')
    {
      assert lower[..i + 1][..i] == lower[..i];
      if Alnum(lower[i]) {
        out := out + [lower[i]];
        dash := false;
        continue;
      }
      if !dash {
        out := out + ['-'];
        dash := true;
      }
    }
    assert lower[..|lower|] == lower;
    return TrimRight(TrimLeft(out));
  }

  // ------------------------------------------------------------------------- names

  function Decimal(n: nat): (s: string)
    ensures s != "" && forall c | c in s :: Digit(c)
  {
    if n < 10 then [('0' as int + n) as char] else Decimal(n / 10) + [('0' as int + n % 10) as char]
  }

  /** The first 16 hexadecimal digits of a digest. */
  predicate IsShortHash(h: string) {
    |h| == HASH_LENGTH && forall c | c in h :: Digit(c) || 'a' <= c <= 'f'
  }

  function HashInput(taskId: string, attempt: nat): string {
    taskId + "\0" + Decimal(attempt)
  }

  function BoundedName(value: string, hashInput: string, hash: string -> string): string {
    var clean := Sanitize(value);
    var name := if clean == "" then "task" else clean;
    if |name| <= LABEL_MAX then name
    else
      var suffix := "-" + hash(hashInput);
      var room := LABEL_MAX - |suffix|;
      var prefix := TrimRight(name[..if room < 0 then 0 else room]);
      (if prefix == "" then "task" else prefix) + suffix
  }

  /** `Name`. */
  function Name(taskId: string, attempt: nat, hash: string -> string): string {
    var number, clean := Decimal(attempt), Sanitize(Lower(taskId));
    var base := if clean == "" then "task-a" + number else clean + "-a" + number;
    var marked := if clean != taskId then base + "-" + hash(HashInput(taskId, attempt)) else base;
    BoundedName(marked, HashInput(taskId, attempt), hash)
  }

  lemma SpacedPrefix(s: string, n: nat)
    requires n <= |s| && Spaced(s)
    ensures Spaced(s[..n])
  {
  }

  lemma BoundedNameIsLabel(value: string, hashInput: string, hash: string -> string)
    requires IsShortHash(hash(hashInput))
    ensures DnsLabel(BoundedName(value, hashInput, hash))
  {
    SanitizeIsClean(value);
    var clean := Sanitize(value);
    var name := if clean == "" then "task" else clean;
    if |name| > LABEL_MAX {
      var suffix := "-" + hash(hashInput);
      var head := name[..LABEL_MAX - |suffix|];
      SpacedPrefix(name, LABEL_MAX - |suffix|);
      TrimRightKeeps(head);
      StartStays(head);
      HashedIsLabel(TrimRight(head), hash(hashInput));
    } else {
      CleanIsLabel(name);
    }
  }

  lemma CleanIsLabel(s: string)
    requires Clean(s) && 1 <= |s| <= LABEL_MAX
    ensures DnsLabel(s)
  {
  }

  lemma HashedIsLabel(prefix: string, h: string)
    requires Spaced(prefix) && prefix != "" && prefix[0] != '-' && |prefix| + 1 + HASH_LENGTH <= LABEL_MAX && IsShortHash(h)
    ensures DnsLabel(prefix + ("-" + h))
  {
    var whole := prefix + ("-" + h);
    forall i | 0 <= i < |whole| ensures Alnum(whole[i]) || whole[i] == '-' {
      var k := i - |prefix| - 1;
      assert k >= 0 ==> whole[i] == h[k] && h[k] in h;
    }
    assert whole[|whole| - 1] == h[HASH_LENGTH - 1] && h[HASH_LENGTH - 1] in h;
  }

  lemma {:induction false} StartStays(s: string)
    requires s != "" && s[0] != '-'
    ensures TrimRight(s) != "" && TrimRight(s)[0] == s[0]
  {
    if s[|s| - 1] == '-' {
      StartStays(s[..|s| - 1]);
    }
  }

  /** For any task ID, attempt number and hash, the name is a DNS label. */
  lemma NameIsLabel(taskId: string, attempt: nat, hash: string -> string)
    requires IsShortHash(hash(HashInput(taskId, attempt)))
    ensures DnsLabel(Name(taskId, attempt, hash))
  {
    var number, clean := Decimal(attempt), Sanitize(Lower(taskId));
    var base := if clean == "" then "task-a" + number else clean + "-a" + number;
    BoundedNameIsLabel(if clean != taskId then base + "-" + hash(HashInput(taskId, attempt)) else base, HashInput(taskId, attempt), hash);
  }

  /** IDs such as the store generates: clean, not empty, and short enough with the number. */
  predicate CanonicalUntruncated(taskId: string, attempt: nat) {
    Clean(taskId) && taskId != "" && |taskId| + 2 + |Decimal(attempt)| <= LABEL_MAX
  }

  lemma NameOfCanonical(taskId: string, attempt: nat, hash: string -> string)
    requires CanonicalUntruncated(taskId, attempt)
    ensures Name(taskId, attempt, hash) == taskId + "-a" + Decimal(attempt)
  {
    var number := Decimal(attempt);
    LowerOfClean(taskId);
    SanitizeFixesClean(taskId);
    var base := taskId + "-a" + number;
    forall i | 0 < i < |base| ensures base[i - 1] != '-' || base[i] != '-' {
      assert i < |taskId| ==> base[i] == taskId[i] && base[i - 1] == taskId[i - 1];
      assert i >= |taskId| + 2 ==> base[i] == number[i - |taskId| - 2] && base[i] in number;
    }
    forall i | 0 <= i < |base| ensures Alnum(base[i]) || base[i] == '-' {
      assert i < |taskId| ==> base[i] == taskId[i];
      assert i >= |taskId| + 2 ==> base[i] == number[i - |taskId| - 2] && base[i] in number;
    }
    assert base[|base| - 1] == number[|number| - 1] && base[|base| - 1] in number;
    assert Clean(base);
    SanitizeFixesClean(base);
  }

  lemma LowerOfClean(s: string)
    requires Clean(s)
    ensures Lower(s) == s
  {
    forall i | 0 <= i < |s| ensures Lower(s)[i] == s[i] {
    }
  }

  lemma {:induction false} DecimalIsInjective(m: nat, n: nat)
    requires Decimal(m) == Decimal(n)
    ensures m == n
  {
    DecimalSplit(m);
    DecimalSplit(n);
    if m >= 10 && n >= 10 {
      assert Decimal(m / 10) == Decimal(m)[..|Decimal(m)| - 1];
      DecimalIsInjective(m / 10, n / 10);
    }
  }

  lemma DecimalSplit(n: nat)
    ensures Decimal(n)[|Decimal(n)| - 1] as int == '0' as int + n % 10
    ensures if n < 10 then |Decimal(n)| == 1 else |Decimal(n)| > 1 && Decimal(n)[..|Decimal(n)| - 1] == Decimal(n / 10)
  {
    if n < 10 {
      assert Decimal(n) == [('0' as int + n) as char];
    } else {
      var last := [('0' as int + n % 10) as char];
      assert Decimal(n) == Decimal(n / 10) + last;
      assert (Decimal(n / 10) + last)[..|Decimal(n / 10)|] == Decimal(n / 10);
    }
  }

  /** The letter before one number cannot lie inside the other. */
  lemma NumberIsLongest(u: string, d: string, v: string, e: string)
    requires u + "-a" + d == v + "-a" + e && forall c | c in e :: Digit(c)
    ensures |d| >= |e|
  {
    var s := v + "-a" + e;
    forall i | |s| - |e| <= i < |s| ensures Digit(s[i]) {
      assert s[i] == e[i - (|s| - |e|)] && s[i] in e;
    }
    assert s == u + "-a" + d && s[|s| - |d| - 1] == 'a';
  }

  /** The number follows the last letter of the name, so it can be read back. */
  lemma SuffixDecodes(u: string, d: string, v: string, e: string)
    requires u + "-a" + d == v + "-a" + e
    requires (forall c | c in d :: Digit(c)) && (forall c | c in e :: Digit(c))
    ensures u == v && d == e
  {
    var s := u + "-a" + d;
    NumberIsLongest(u, d, v, e);
    NumberIsLongest(v, e, u, d);
    assert u == s[..|u|] && v == s[..|v|] && d == s[|s| - |d|..] && e == s[|s| - |e|..];
  }

  /** Two attempts of canonical tasks never share a name. */
  lemma NameIsInjective(t: string, m: nat, u: string, n: nat, hash: string -> string)
    requires CanonicalUntruncated(t, m) && CanonicalUntruncated(u, n)
    requires Name(t, m, hash) == Name(u, n, hash)
    ensures t == u && m == n
  {
    NameOfCanonical(t, m, hash);
    NameOfCanonical(u, n, hash);
    SuffixDecodes(t, Decimal(m), u, Decimal(n));
    DecimalIsInjective(m, n);
  }

  /** Every ID the store generates - a prefix and 32 hexadecimal digits - is canonical,
      and its names are untruncated up to attempt numbers of 25 digits. */
  lemma GeneratedIdsAreCanonical(random: string, attempt: nat)
    requires |random| == 32 && (forall c | c in random :: Digit(c) || 'a' <= c <= 'f') && |Decimal(attempt)| <= 25
    ensures CanonicalUntruncated("swe-" + random, attempt)
  {
    var id := "swe-" + random;
    forall i | 0 <= i < |id| ensures if i < 4 then id[i] == "swe-"[i] else Alnum(id[i]) {
      assert i >= 4 ==> id[i] == random[i - 4] && id[i] in random;
    }
  }
}
