/** The prompt of a forge follow-up: untrusted text is flattened, quoted and cut so that
    the whole prompt stays within a byte limit. A character is one code point. */
module FollowUpPrompt {
  import JobNames

  const PROMPT_MAX := 97_280
  const INSTRUCTION_BYTES := 836
  const ORIGINAL_MAX := 12_288
  const URL_MAX := 4096
  const BATCH_MAX := 32
  const INT64_LIMIT := 0x8000_0000_0000_0000

  // ------------------------------------------------------------------------- bytes

  /** The UTF-8 width of a code point. */
  function Width(c: char): (w: nat)
    ensures 1 <= w <= 4
  {
    if c < '\U{80}' then 1 else if c < '\U{800}' then 2 else if c < '\U{10000}' then 3 else 4
  }

  function Bytes(s: string): nat {
    if s == "" then 0 else Bytes(s[..|s| - 1]) + Width(s[|s| - 1])
  }

  lemma {:induction false} BytesAppend(s: string, t: string)
    ensures Bytes(s + t) == Bytes(s) + Bytes(t)
  {
    if t == "" {
      assert s + t == s;
    } else {
      BytesAppend(s, t[..|t| - 1]);
      assert (s + t)[..|s + t| - 1] == s + t[..|t| - 1];
    }
  }

  predicate Ascii(s: string) {
    forall i | 0 <= i < |s| :: s[i] < '\U{80}'
  }

  lemma {:induction false} AsciiBytes(s: string)
    requires Ascii(s)
    ensures Bytes(s) == |s|
  {
    if s != "" {
      AsciiBytes(s[..|s| - 1]);
    }
  }

  // ---------------------------------------------------------------------- flattening

  predicate IsControl(c: char) {
    c < ' ' || '\U{7F}' <= c < '\U{A0}'
  }

  predicate IsSpace(c: char) {
    || c in {' ', '\t', '\n', '\U{B}', '\U{C}', '\r', '\U{85}', '\U{A0}', '\U{1680}', '\U{2028}', '\U{2029}', '\U{202F}', '\U{205F}', '\U{3000}'}
    || '\U{2000}' <= c <= '\U{200A}'
  }

  function Decontrol(s: string): (t: string)
    ensures |t| == |s|
  {
    seq(|s|, i requires 0 <= i < |s| => if IsControl(s[i]) then ' ' else s[i])
  }

  /** Words joined by single spaces. `gap` says that a space is owed before the next word. */
  function Words(s: string, out: string, gap: bool): string
    decreases |s|
  {
    if s == "" then out
    else if IsSpace(s[0]) then Words(s[1..], out, out != "")
    else Words(s[1..], out + (if gap then " " else "") + [s[0]], false)
  }

  /** The longest prefix of whole characters within `limit` bytes. */
  function Prefix(s: string, limit: nat): (p: string)
    ensures p <= s
  {
    if Bytes(s) <= limit || s == "" then s else Prefix(s[..|s| - 1], limit)
  }

  function BoundedText(value: string, limit: nat): string {
    Prefix(Words(Decontrol(value), "", false), limit)
  }

  predicate Plain(s: string) {
    forall i | 0 <= i < |s| :: !IsControl(s[i])
  }

  lemma {:induction false} WordsArePlain(s: string, out: string, gap: bool)
    requires Plain(s) && Plain(out)
    ensures Plain(Words(s, out, gap))
    decreases |s|
  {
    if s != "" {
      if IsSpace(s[0]) {
        WordsArePlain(s[1..], out, out != "");
      } else {
        WordsArePlain(s[1..], out + (if gap then " " else "") + [s[0]], false);
      }
    }
  }

  lemma {:induction false} PrefixFits(s: string, limit: nat)
    ensures Bytes(Prefix(s, limit)) <= limit
    ensures Plain(s) ==> Plain(Prefix(s, limit))
  {
    if Bytes(s) > limit && s != "" {
      PrefixFits(s[..|s| - 1], limit);
    }
  }

  /** Bounded text has no control characters and fits. */
  lemma BoundedTextFits(value: string, limit: nat)
    ensures Plain(BoundedText(value, limit)) && Bytes(BoundedText(value, limit)) <= limit
  {
    WordsArePlain(Decontrol(value), "", false);
    PrefixFits(Words(Decontrol(value), "", false), limit);
  }

  // ------------------------------------------------------------------------ quoting

  function HexDigit(n: nat): char
    requires n < 16
  {
    if n < 10 then ('0' as int + n) as char else ('a' as int + n - 10) as char
  }

  function Hex(n: nat, digits: nat): (s: string)
    ensures |s| == digits
    decreases digits
  {
    if digits == 0 then "" else Hex(n / 16, digits - 1) + [HexDigit(n % 16)]
  }

  lemma {:induction false} HexIsAscii(n: nat, digits: nat)
    ensures Ascii(Hex(n, digits))
    decreases digits
  {
    if digits > 0 {
      HexIsAscii(n / 16, digits - 1);
    }
  }

  /** How a quoted string writes one character; `printable` is the Unicode table. */
  function Escape(c: char, printable: char -> bool): string {
    if c == '"' then ['\\', '"']
    else if c == '\\' then ['\\', '\\']
    else if printable(c) then [c]
    else if c == '\n' then ['\\', 'n']
    else if c == '\r' then ['\\', 'r']
    else if c == '\t' then ['\\', 't']
    else if c == '\U{7}' then ['\\', 'a']
    else if c == '\U{8}' then ['\\', 'b']
    else if c == '\U{B}' then ['\\', 'v']
    else if c == '\U{C}' then ['\\', 'f']
    else if c < ' ' || c == '\U{7F}' then ['\\', 'x'] + Hex(c as int, 2)
    else if c < '\U{10000}' then ['\\', 'u'] + Hex(c as int, 4)
    else ['\\', 'U'] + Hex(c as int, 8)
  }

  function Escaped(s: string, printable: char -> bool): string {
    if s == "" then "" else Escaped(s[..|s| - 1], printable) + Escape(s[|s| - 1], printable)
  }

  function Quote(s: string, printable: char -> bool): string {
    "\"" + Escaped(s, printable) + "\""
  }

  /** ASCII graphic characters and the space are printable. */
  ghost predicate KnowsAscii(printable: char -> bool) {
    forall c: char | ' ' <= c < '\U{7F}' :: printable(c)
  }

  /** Away from control characters, quoting expands a byte at most threefold, and ASCII
      at most twofold. */
  lemma EscapeExpands(c: char, printable: char -> bool)
    requires KnowsAscii(printable) && !IsControl(c)
    ensures Bytes(Escape(c, printable)) <= 3 * Width(c)
    ensures c < '\U{80}' ==> Bytes(Escape(c, printable)) <= 2
  {
    var e := Escape(c, printable);
    if c == '"' || c == '\\' {
      AsciiBytes(e);
    } else if printable(c) {
      assert e[..0] == "";
    } else if c < '\U{10000}' {
      HexIsAscii(c as int, 4);
      AsciiBytes(e);
    } else {
      HexIsAscii(c as int, 8);
      AsciiBytes(e);
    }
  }

  lemma {:induction false} EscapedExpands(s: string, printable: char -> bool)
    requires KnowsAscii(printable) && Plain(s)
    ensures Bytes(Escaped(s, printable)) <= 3 * Bytes(s)
    ensures Ascii(s) ==> Bytes(Escaped(s, printable)) <= 2 * |s|
  {
    if s != "" {
      var init, last := s[..|s| - 1], s[|s| - 1];
      EscapedExpands(init, printable);
      EscapeExpands(last, printable);
      BytesAppend(Escaped(init, printable), Escape(last, printable));
    }
  }

  lemma QuoteBytes(s: string, printable: char -> bool)
    ensures Bytes(Quote(s, printable)) == 2 + Bytes(Escaped(s, printable))
  {
    AsciiBytes("\"");
    BytesAppend("\"", Escaped(s, printable));
    BytesAppend("\"" + Escaped(s, printable), "\"");
  }

  function BoundedQuoted(value: string, limit: nat, printable: char -> bool): string {
    if limit <= 2 then "\"\""
    else
      var text := BoundedText(value, limit - 2);
      if Bytes(Quote(text, printable)) <= limit then Quote(text, printable)
      else Quote(BoundedText(text, (limit - 2) / 3), printable)
  }

  /** Quoted text never exceeds its limit, or the two quotes it always has. */
  lemma BoundedQuotedFits(value: string, limit: nat, printable: char -> bool)
    requires KnowsAscii(printable)
    ensures 2 <= Bytes(BoundedQuoted(value, limit, printable)) <= if limit < 2 then 2 else limit
  {
    hide BoundedText, Escaped, Quote;
    if limit <= 2 {
      AsciiBytes("\"\"");
    } else {
      var text := BoundedText(value, limit - 2);
      var short := BoundedText(text, (limit - 2) / 3);
      BoundedTextFits(text, (limit - 2) / 3);
      EscapedExpands(short, printable);
      QuoteBytes(short, printable);
      QuoteBytes(text, printable);
    }
  }

  // ------------------------------------------------------------------------- fields

  datatype Event = Event(
    id: string, provider: string, kind: string, number: nat, commentId: nat, commentKind: string,
    commit: string, branch: string, author: string, url: string, title: string, body: string)

  function JoinFields(fields: seq<string>): string {
    if fields == [] then ""
    else if |fields| == 1 then fields[0]
    else JoinFields(fields[..|fields| - 1]) + "; " + fields[|fields| - 1]
  }

  /** The bytes of the fields with a separator each. */
  function Cost(fields: seq<string>): nat {
    if fields == [] then 0 else Cost(fields[..|fields| - 1]) + Bytes(fields[|fields| - 1]) + 2
  }

  lemma {:induction false} CostAppend(a: seq<string>, b: seq<string>)
    ensures Cost(a + b) == Cost(a) + Cost(b)
  {
    if b == [] {
      assert a + b == a;
    } else {
      CostAppend(a, b[..|b| - 1]);
      assert (a + b)[..|a + b| - 1] == a + b[..|b| - 1];
    }
  }

  lemma CostOfOne(f: string)
    ensures Cost([f]) == Bytes(f) + 2
  {
    assert [f][..0] == [];
  }

  lemma {:induction false} JoinCosts(fields: seq<string>)
    requires fields != []
    ensures Bytes(JoinFields(fields)) == Cost(fields) - 2
  {
    if |fields| == 1 {
      assert fields == [fields[0]];
      CostOfOne(fields[0]);
    } else {
      var init, last := fields[..|fields| - 1], fields[|fields| - 1];
      JoinCosts(init);
      AsciiBytes("; ");
      BytesAppend(JoinFields(init), "; ");
      BytesAppend(JoinFields(init) + "; ", last);
    }
  }

  /** A field is a short ASCII key and a bounded value. */
  lemma FieldCost(key: string, value: string, most: nat)
    requires Ascii(key) && Bytes(value) <= most
    ensures Cost([key + value]) == |key| + Bytes(value) + 2 <= |key| + most + 2
  {
    AsciiBytes(key);
    BytesAppend(key, value);
    CostOfOne(key + value);
  }

  lemma {:induction false} DecimalLength(n: nat, digits: nat)
    requires digits > 0 && n < Power10(digits)
    ensures |JobNames.Decimal(n)| <= digits
  {
    if n >= 10 {
      DecimalLength(n / 10, digits - 1);
    }
  }

  function Power10(k: nat): (p: nat)
    ensures p > 0
  {
    if k == 0 then 1 else 10 * Power10(k - 1)
  }

  lemma DecimalField(key: string, n: nat)
    requires Ascii(key) && n < INT64_LIMIT
    ensures Cost([key + JobNames.Decimal(n)]) <= |key| + 21
  {
    assert Power10(10) == 10_000_000_000;
    assert Power10(19) == 10_000_000_000 * 1_000_000_000 by { Power10Sum(10, 9); assert Power10(9) == 1_000_000_000; }
    DecimalLength(n, 19);
    var d := JobNames.Decimal(n);
    forall i | 0 <= i < |d| ensures d[i] < '\U{80}' {
      assert d[i] in d;
    }
    AsciiBytes(d);
    FieldCost(key, d, 19);
  }

  lemma {:induction false} Power10Sum(a: nat, b: nat)
    ensures Power10(a + b) == Power10(a) * Power10(b)
  {
    if b > 0 {
      Power10Sum(a, b - 1);
    }
  }

  function Route(e: Event): string {
    if (e.provider == "github" && e.commentKind == "review_comment") || (e.provider == "bitbucket" && e.commentKind == "comment")
    then "matching_thread" else "general_pull_request_comment"
  }

  function Marker(digest: string): string {
    "<!-- simpleswe:" + digest + " -->"
  }

  /** What the prompt depends on besides the events: the digest of an event ID, the table
      of printable characters, and the fixed review instructions. */
  datatype Setting = Setting(digest: string -> string, printable: char -> bool, instructions: string)

  ghost predicate GoodSetting(c: Setting) {
    && (forall id :: JobNames.IsShortHash(c.digest(id)))
    && KnowsAscii(c.printable) && Bytes(c.instructions) == INSTRUCTION_BYTES
  }

  function ReviewFields(e: Event, c: Setting): seq<string> {
    ["comment_id=" + JobNames.Decimal(e.commentId)] + ["reply_route=" + Route(e)] + ["reply_marker=" + Marker(c.digest(e.id))]
  }

  function IdentityFields(e: Event, c: Setting): seq<string> {
    ["event_id=" + BoundedQuoted(e.id, 128, c.printable)] + ["provider=" + BoundedText(e.provider, 32)] + ["kind=" + BoundedText(e.kind, 32)]
  }

  function OptionalFields(e: Event, c: Setting): seq<string> {
    (if e.number > 0 then ["pull_request=" + JobNames.Decimal(e.number)] else [])
    + (if e.commentKind != "" then ["comment_kind=" + BoundedText(e.commentKind, 32)] else [])
    + (if e.commit != "" then ["commit=" + BoundedQuoted(e.commit, 128, c.printable)] else [])
    + (if e.branch != "" then ["branch=" + BoundedQuoted(e.branch, 256, c.printable)] else [])
  }

  function TextFields(e: Event, c: Setting): seq<string> {
    ["author=" + BoundedQuoted(e.author, 256, c.printable)] + ["url=" + BoundedQuoted(e.url, 512, c.printable)]
    + ["title=" + BoundedQuoted(e.title, 512, c.printable)]
  }

  function Fields(e: Event, review: bool, c: Setting): seq<string> {
    (if review then ReviewFields(e, c) else []) + IdentityFields(e, c) + OptionalFields(e, c) + TextFields(e, c)
  }

  lemma RouteBytes(e: Event)
    ensures Bytes(Route(e)) <= 28
  {
    AsciiBytes(Route(e));
  }

  lemma ReviewFieldsCost(e: Event, c: Setting)
    requires GoodSetting(c) && e.commentId < INT64_LIMIT
    ensures Cost(ReviewFields(e, c)) <= 124
  {
    hide Route, Marker, Bytes;
    DecimalField("comment_id=", e.commentId);
    RouteBytes(e);
    FieldCost("reply_route=", Route(e), 28);
    MarkerBytes(c.digest(e.id));
    FieldCost("reply_marker=", Marker(c.digest(e.id)), 35);
    CostAppend(["comment_id=" + JobNames.Decimal(e.commentId)], ["reply_route=" + Route(e)]);
    CostAppend(["comment_id=" + JobNames.Decimal(e.commentId)] + ["reply_route=" + Route(e)], ["reply_marker=" + Marker(c.digest(e.id))]);
  }

  lemma MarkerBytes(digest: string)
    requires JobNames.IsShortHash(digest)
    ensures Bytes(Marker(digest)) == 35
  {
    forall i | 0 <= i < |digest| ensures digest[i] < '\U{80}' {
      assert digest[i] in digest;
    }
    AsciiBytes("<!-- simpleswe:");
    AsciiBytes(digest);
    AsciiBytes(" -->");
    BytesAppend("<!-- simpleswe:", digest);
    BytesAppend("<!-- simpleswe:" + digest, " -->");
  }

  lemma QuotedField(key: string, value: string, limit: nat, c: Setting)
    requires GoodSetting(c) && Ascii(key) && limit >= 2
    ensures Cost([key + BoundedQuoted(value, limit, c.printable)]) <= |key| + limit + 2
  {
    BoundedQuotedFits(value, limit, c.printable);
    FieldCost(key, BoundedQuoted(value, limit, c.printable), limit);
  }

  lemma TextField(key: string, value: string, limit: nat)
    requires Ascii(key)
    ensures Cost([key + BoundedText(value, limit)]) <= |key| + limit + 2
  {
    BoundedTextFits(value, limit);
    FieldCost(key, BoundedText(value, limit), limit);
  }

  lemma IdentityFieldsCost(e: Event, c: Setting)
    requires GoodSetting(c)
    ensures Cost(IdentityFields(e, c)) <= 221
  {
    hide BoundedQuoted, BoundedText, GoodSetting;
    QuotedField("event_id=", e.id, 128, c);
    TextField("provider=", e.provider, 32);
    TextField("kind=", e.kind, 32);
    var a, b := ["event_id=" + BoundedQuoted(e.id, 128, c.printable)], ["provider=" + BoundedText(e.provider, 32)];
    CostAppend(a, b);
    CostAppend(a + b, ["kind=" + BoundedText(e.kind, 32)]);
  }

  lemma TextFieldsCost(e: Event, c: Setting)
    requires GoodSetting(c)
    ensures Cost(TextFields(e, c)) <= 1303
  {
    hide BoundedQuoted, BoundedText, GoodSetting;
    QuotedField("author=", e.author, 256, c);
    QuotedField("url=", e.url, 512, c);
    QuotedField("title=", e.title, 512, c);
    var a, b := ["author=" + BoundedQuoted(e.author, 256, c.printable)], ["url=" + BoundedQuoted(e.url, 512, c.printable)];
    CostAppend(a, b);
    CostAppend(a + b, ["title=" + BoundedQuoted(e.title, 512, c.printable)]);
  }

  lemma OptionalFieldsCost(e: Event, c: Setting)
    requires GoodSetting(c) && e.number < INT64_LIMIT
    ensures Cost(OptionalFields(e, c)) <= 483
  {
    hide BoundedQuoted, BoundedText, GoodSetting;
    DecimalField("pull_request=", e.number);
    TextField("comment_kind=", e.commentKind, 32);
    QuotedField("commit=", e.commit, 128, c);
    QuotedField("branch=", e.branch, 256, c);
    var n := if e.number > 0 then ["pull_request=" + JobNames.Decimal(e.number)] else [];
    var k := if e.commentKind != "" then ["comment_kind=" + BoundedText(e.commentKind, 32)] else [];
    var m := if e.commit != "" then ["commit=" + BoundedQuoted(e.commit, 128, c.printable)] else [];
    var b := if e.branch != "" then ["branch=" + BoundedQuoted(e.branch, 256, c.printable)] else [];
    CostAppend(n, k);
    CostAppend(n + k, m);
    CostAppend(n + k + m, b);
  }

  lemma FieldsCost(e: Event, review: bool, c: Setting)
    requires GoodSetting(c) && e.number < INT64_LIMIT && e.commentId < INT64_LIMIT
    ensures Cost(Fields(e, review, c)) <= 2131 && Fields(e, review, c) != []
  {
    hide ReviewFields, IdentityFields, OptionalFields, GoodSetting;
    ReviewFieldsCost(e, c);
    IdentityFieldsCost(e, c);
    OptionalFieldsCost(e, c);
    TextFieldsCost(e, c);
    var r := if review then ReviewFields(e, c) else [];
    CostAppend(r, IdentityFields(e, c));
    CostAppend(r + IdentityFields(e, c), OptionalFields(e, c));
    CostAppend(r + IdentityFields(e, c) + OptionalFields(e, c), TextFields(e, c));
  }

  // ------------------------------------------------------------------------- prompt

  /** Everything about one event but its body. */
  function Fixed(e: Event, i: nat, review: bool, c: Setting): string {
    "forge_event_" + JobNames.Decimal(i + 1) + ": " + JoinFields(Fields(e, review, c)) + "; body="
  }

  lemma FixedCost(e: Event, i: nat, review: bool, c: Setting)
    requires Fields(e, review, c) != []
    ensures Bytes(Fixed(e, i, review, c)) == 19 + |JobNames.Decimal(i + 1)| + Cost(Fields(e, review, c))
  {
    hide Fields, Bytes, Cost;
    var d, j := JobNames.Decimal(i + 1), JoinFields(Fields(e, review, c));
    JoinCosts(Fields(e, review, c));
    forall k | 0 <= k < |d| ensures d[k] < '\U{80}' {
      assert d[k] in d;
    }
    AsciiBytes(d);
    AsciiBytes("forge_event_");
    AsciiBytes(": ");
    AsciiBytes("; body=");
    BytesAppend("forge_event_", d);
    BytesAppend("forge_event_" + d, ": ");
    BytesAppend("forge_event_" + d + ": ", j);
    BytesAppend("forge_event_" + d + ": " + j, "; body=");
  }

  lemma FixedBytes(e: Event, i: nat, review: bool, c: Setting)
    requires GoodSetting(c) && i < BATCH_MAX && e.number < INT64_LIMIT && e.commentId < INT64_LIMIT
    ensures Bytes(Fixed(e, i, review, c)) <= 2152
  {
    hide Fields, Fixed, GoodSetting, Bytes, Cost;
    FieldsCost(e, review, c);
    FixedCost(e, i, review, c);
    assert Power10(2) == 100;
    DecimalLength(i + 1, 2);
  }

  predicate IsReview(events: seq<Event>) {
    events != [] && events[0].kind == "review_comment"
  }

  function Head(original: string, url: string, review: bool, c: Setting): string {
    "original_task=" + BoundedQuoted(original, ORIGINAL_MAX, c.printable)
    + if review then "; pull_request_url=" + Quote(url, c.printable) else ""
  }

  function Suffix(review: bool, c: Setting): string {
    if review then "; " + c.instructions else ""
  }

  /** The bytes the first `n` events take without their bodies. */
  function UsedBy(events: seq<Event>, n: nat, review: bool, c: Setting): nat
    requires n <= |events|
  {
    if n == 0 then 0 else UsedBy(events, n - 1, review, c) + 2 + Bytes(Fixed(events[n - 1], n - 1, review, c))
  }

  function Used(original: string, url: string, events: seq<Event>, c: Setting): nat {
    Bytes(Head(original, url, IsReview(events), c)) + Bytes(Suffix(IsReview(events), c)) + UsedBy(events, |events|, IsReview(events), c)
  }

  /** What is left for each body. */
  function BodyBudget(used: nat, n: nat): nat {
    if n > 0 && used < PROMPT_MAX then (PROMPT_MAX - used) / n else 0
  }

  function Parts(events: seq<Event>, n: nat, review: bool, budget: nat, c: Setting): string
    requires n <= |events|
  {
    if n == 0 then ""
    else Parts(events, n - 1, review, budget, c) + "; " + (Fixed(events[n - 1], n - 1, review, c) + BoundedQuoted(events[n - 1].body, budget, c.printable))
  }

  /** `forgeFollowUpPrompt`. */
  function Prompt(original: string, url: string, events: seq<Event>, c: Setting): string {
    var review := IsReview(events);
    var budget := BodyBudget(Used(original, url, events, c), |events|);
    Head(original, url, review, c) + Parts(events, |events|, review, budget, c) + Suffix(review, c)
  }

  /** The two loops over the events, as the source runs them. */
  method ForgeFollowUpPrompt(original: string, url: string, events: seq<Event>, c: Setting) returns (prompt: string)
    ensures prompt == Prompt(original, url, events, c)
  {
    hide Head, Fixed, BoundedQuoted, Suffix, Bytes, BodyBudget;
    var review := IsReview(events);
    var suffix := Suffix(review, c);
    prompt := Head(original, url, review, c);
    var fixed: seq<string> := [];
    var used := Bytes(prompt) + Bytes(suffix);
    for i := 0 to |events|
      invariant |fixed| == i && forall j | 0 <= j < i :: fixed[j] == Fixed(events[j], j, review, c)
      invariant used == Bytes(prompt) + Bytes(suffix) + UsedBy(events, i, review, c)
    {
      var text := Fixed(events[i], i, review, c);
      fixed := fixed + [text];
      used := used + 2 + Bytes(text);
    }
    var budget := BodyBudget(used, |events|);
    ghost var head := prompt;
    for i := 0 to |events|
      invariant prompt == head + Parts(events, i, review, budget, c)
    {
      prompt := prompt + "; " + (fixed[i] + BoundedQuoted(events[i].body, budget, c.printable));
    }
    prompt := prompt + suffix;
  }

  lemma KeyedBytes(key: string, value: string)
    requires Ascii(key)
    ensures Bytes(key + value) == |key| + Bytes(value)
  {
    AsciiBytes(key);
    BytesAppend(key, value);
  }

  lemma UrlBytes(url: string, c: Setting)
    requires GoodSetting(c) && Ascii(url) && Plain(url) && |url| <= URL_MAX
    ensures Bytes("; pull_request_url=" + Quote(url, c.printable)) <= 19 + 2 + 2 * URL_MAX
  {
    EscapedExpands(url, c.printable);
    QuoteBytes(url, c.printable);
    hide Quote;
    KeyedBytes("; pull_request_url=", Quote(url, c.printable));
  }

  lemma OriginalBytes(original: string, c: Setting)
    requires GoodSetting(c)
    ensures Bytes("original_task=" + BoundedQuoted(original, ORIGINAL_MAX, c.printable)) <= 14 + ORIGINAL_MAX
  {
    hide BoundedQuoted, Bytes;
    BoundedQuotedFits(original, ORIGINAL_MAX, c.printable);
    KeyedBytes("original_task=", BoundedQuoted(original, ORIGINAL_MAX, c.printable));
  }

  lemma HeadBytes(original: string, url: string, review: bool, c: Setting)
    requires GoodSetting(c) && Ascii(url) && Plain(url) && |url| <= URL_MAX
    ensures Bytes(Head(original, url, review, c)) + Bytes(Suffix(review, c)) <= 21_353
  {
    UrlBytes(url, c);
    OriginalBytes(original, c);
    KeyedBytes("; ", c.instructions);
    hide BoundedQuoted, Quote;
    var o, u := "original_task=" + BoundedQuoted(original, ORIGINAL_MAX, c.printable), "; pull_request_url=" + Quote(url, c.printable);
    BytesAppend(o, if review then u else "");
  }

  ghost predicate GoodEvents(events: seq<Event>) {
    |events| <= BATCH_MAX && forall e | e in events :: e.number < INT64_LIMIT && e.commentId < INT64_LIMIT
  }

  lemma {:induction false} UsedByBytes(events: seq<Event>, n: nat, review: bool, c: Setting)
    requires GoodSetting(c) && GoodEvents(events) && n <= |events|
    ensures UsedBy(events, n, review, c) <= 2154 * n
  {
    hide Fixed, GoodSetting;
    if n > 0 {
      UsedByBytes(events, n - 1, review, c);
      FixedBytes(events[n - 1], n - 1, review, c);
    }
  }

  lemma OnePartBytes(before: string, fixed: string, body: string)
    ensures Bytes(before + "; " + (fixed + body)) == Bytes(before) + 2 + Bytes(fixed) + Bytes(body)
  {
    AsciiBytes("; ");
    hide Bytes;
    BytesAppend(fixed, body);
    BytesAppend(before, "; ");
    BytesAppend(before + "; ", fixed + body);
  }

  /** A body takes at least its quotes and at most its share. */
  lemma {:induction false} PartsBytes(events: seq<Event>, n: nat, review: bool, budget: nat, c: Setting)
    requires KnowsAscii(c.printable) && n <= |events|
    ensures UsedBy(events, n, review, c) + n * 2 <= Bytes(Parts(events, n, review, budget, c))
    ensures Bytes(Parts(events, n, review, budget, c)) <= UsedBy(events, n, review, c) + n * (if budget < 2 then 2 else budget)
  {
    hide Fixed, BoundedQuoted, KnowsAscii, Bytes;
    if n == 0 {
      AsciiBytes("");
    } else {
      var f, b := Fixed(events[n - 1], n - 1, review, c), BoundedQuoted(events[n - 1].body, budget, c.printable);
      PartsBytes(events, n - 1, review, budget, c);
      OnePartBytes(Parts(events, n - 1, review, budget, c), f, b);
      BoundedQuotedFits(events[n - 1].body, budget, c.printable);
      var each := if budget < 2 then 2 else budget;
      assert n * each == (n - 1) * each + each;
    }
  }

  lemma ShareFits(room: nat, n: nat)
    requires n > 0
    ensures n * (room / n) <= room
  {
    assert room == n * (room / n) + room % n;
  }

  /** The prompt keeps its limit exactly if the fixed text and two quotes per body do. */
  lemma PromptFitsIff(original: string, url: string, events: seq<Event>, c: Setting)
    requires KnowsAscii(c.printable)
    ensures Bytes(Prompt(original, url, events, c)) <= PROMPT_MAX <==> Used(original, url, events, c) + 2 * |events| <= PROMPT_MAX
  {
    hide Head, Suffix, Parts, UsedBy, KnowsAscii;
    var review, n := IsReview(events), |events|;
    var used := Used(original, url, events, c);
    var budget := BodyBudget(used, n);
    PartsBytes(events, n, review, budget, c);
    BytesAppend(Head(original, url, review, c), Parts(events, n, review, budget, c));
    BytesAppend(Head(original, url, review, c) + Parts(events, n, review, budget, c), Suffix(review, c));
    if n > 0 && used + 2 * n <= PROMPT_MAX {
      ShareFits(PROMPT_MAX - used, n);
    }
  }

  /** For any batch of up to 32 events with 64-bit numbers, any original task and texts,
      and any ASCII pull-request URL without control characters of at most 4 KiB, the
      prompt has at most 97,280 bytes. */
  lemma PromptFits(original: string, url: string, events: seq<Event>, c: Setting)
    requires GoodSetting(c) && GoodEvents(events) && Ascii(url) && Plain(url) && |url| <= URL_MAX
    ensures Bytes(Prompt(original, url, events, c)) <= PROMPT_MAX
  {
    hide Head, Suffix, UsedBy, Prompt;
    HeadBytes(original, url, IsReview(events), c);
    UsedByBytes(events, |events|, IsReview(events), c);
    PromptFitsIff(original, url, events, c);
  }

  // ------------------------------------------------------- a URL of control characters

  function Repeat(ch: char, n: nat): (s: string)
    ensures |s| == n && forall i | 0 <= i < n :: s[i] == ch
  {
    seq(n, _ => ch)
  }

  predicate OneWord(s: string) {
    forall i | 0 <= i < |s| :: ' ' < s[i] < '\U{7F}' && s[i] != '"' && s[i] != '\\'
  }

  lemma {:induction false} OneWordStays(s: string, out: string)
    requires OneWord(s)
    ensures Words(s, out, false) == out + s
    decreases |s|
  {
    if s == "" {
      assert out + s == out;
    } else {
      OneWordStays(s[1..], out + [s[0]]);
      assert out + "" + [s[0]] == out + [s[0]];
      assert out + [s[0]] + s[1..] == out + s;
    }
  }

  lemma {:induction false} OneWordIsNotEscaped(s: string, printable: char -> bool)
    requires KnowsAscii(printable) && OneWord(s)
    ensures Escaped(s, printable) == s
  {
    if s != "" {
      OneWordIsNotEscaped(s[..|s| - 1], printable);
      assert s == s[..|s| - 1] + [s[|s| - 1]];
    }
  }

  /** One word is bounded by nothing but its length. */
  lemma WordIsKept(s: string, limit: nat)
    requires OneWord(s) && |s| <= limit
    ensures BoundedText(s, limit) == s && Bytes(s) == |s|
  {
    OneWordStays(s, "");
    assert Decontrol(s) == s && "" + s == s;
    AsciiBytes(s);
  }

  lemma WordIsQuoted(s: string, printable: char -> bool)
    requires KnowsAscii(printable) && OneWord(s)
    ensures Bytes(BoundedQuoted(s, |s| + 2, printable)) == |s| + 2
  {
    hide BoundedText, Quote;
    if s == "" {
      AsciiBytes("\"\"");
    } else {
      WordIsKept(s, |s|);
      OneWordIsNotEscaped(s, printable);
      QuoteBytes(s, printable);
    }
  }

  lemma {:induction false} DecimalIsLong(n: nat, digits: nat)
    requires digits > 0 && (n >= Power10(digits - 1) || digits == 1)
    ensures |JobNames.Decimal(n)| >= digits
  {
    if digits > 1 {
      assert Power10(digits - 1) == 10 * Power10(digits - 2) && Power10(digits - 2) > 0;
      DecimalIsLong(n / 10, digits - 1);
    }
  }

  const WORD := 'w'

  /** An event whose texts all fill their fields. */
  function Crowded(): Event {
    Event(Repeat(WORD, 126), Repeat(WORD, 32), "review_comment", 1, 1_000_000_000_000_000_000, Repeat(WORD, 32),
          Repeat(WORD, 126), Repeat(WORD, 254), Repeat(WORD, 254), Repeat(WORD, 510), Repeat(WORD, 510), "")
  }

  lemma QuotedWord(key: string, n: nat, c: Setting)
    requires KnowsAscii(c.printable) && Ascii(key)
    ensures Cost([key + BoundedQuoted(Repeat(WORD, n), n + 2, c.printable)]) == |key| + n + 4
  {
    hide BoundedQuoted, Bytes, Cost;
    WordIsQuoted(Repeat(WORD, n), c.printable);
    FieldCost(key, BoundedQuoted(Repeat(WORD, n), n + 2, c.printable), n + 2);
  }

  lemma TextWord(key: string, word: string, limit: nat)
    requires Ascii(key) && OneWord(word) && |word| <= limit
    ensures Cost([key + BoundedText(word, limit)]) == |key| + |word| + 2
  {
    hide BoundedText, Bytes, Cost;
    WordIsKept(word, limit);
    FieldCost(key, word, |word|);
  }

  lemma DecimalWord(key: string, n: nat, digits: nat)
    requires Ascii(key) && digits > 0 && (n >= Power10(digits - 1) || digits == 1)
    ensures Cost([key + JobNames.Decimal(n)]) >= |key| + digits + 2
  {
    hide Cost;
    DecimalIsLong(n, digits);
    var d := JobNames.Decimal(n);
    forall i | 0 <= i < |d| ensures d[i] < '\U{80}' {
      assert d[i] in d;
    }
    AsciiBytes(d);
    FieldCost(key, d, |d|);
  }

  lemma CrowdedRoute()
    ensures Bytes(Route(Crowded())) == 28
  {
    assert Crowded().provider[0] == WORD;
    AsciiBytes(Route(Crowded()));
  }

  lemma CrowdedComment(key: string)
    requires Ascii(key)
    ensures Cost([key + JobNames.Decimal(Crowded().commentId)]) >= |key| + 21
  {
    hide Cost;
    assert Power10(18) == 1_000_000_000_000_000_000 by { Power10Sum(9, 9); assert Power10(9) == 1_000_000_000; }
    DecimalWord(key, Crowded().commentId, 19);
  }

  lemma CrowdedReview(c: Setting)
    requires GoodSetting(c)
    ensures Cost(ReviewFields(Crowded(), c)) >= 124
  {
    hide Marker, Bytes, Cost, Route, Crowded;
    var e := Crowded();
    var id, route, marker := ["comment_id=" + JobNames.Decimal(e.commentId)], ["reply_route=" + Route(e)], ["reply_marker=" + Marker(c.digest(e.id))];
    CrowdedComment("comment_id=");
    CrowdedRoute();
    FieldCost("reply_route=", Route(e), 28);
    MarkerBytes(c.digest(e.id));
    FieldCost("reply_marker=", Marker(c.digest(e.id)), 35);
    CostAppend(id, route);
    CostAppend(id + route, marker);
  }

  lemma CrowdedIdentity(c: Setting)
    requires GoodSetting(c)
    ensures Cost(IdentityFields(Crowded(), c)) == 203
  {
    hide BoundedQuoted, BoundedText, Bytes, Cost, KnowsAscii;
    var e := Crowded();
    var id, provider, kind := ["event_id=" + BoundedQuoted(e.id, 128, c.printable)], ["provider=" + BoundedText(e.provider, 32)], ["kind=" + BoundedText(e.kind, 32)];
    QuotedWord("event_id=", 126, c);
    TextWord("provider=", e.provider, 32);
    TextWord("kind=", e.kind, 32);
    CostAppend(id, provider);
    CostAppend(id + provider, kind);
  }

  lemma CrowdedOptional(c: Setting)
    requires GoodSetting(c)
    ensures Cost(OptionalFields(Crowded(), c)) >= 465
  {
    hide BoundedQuoted, BoundedText, Bytes, Cost, KnowsAscii;
    var e := Crowded();
    var number, kind := ["pull_request=" + JobNames.Decimal(e.number)], ["comment_kind=" + BoundedText(e.commentKind, 32)];
    var commit, branch := ["commit=" + BoundedQuoted(e.commit, 128, c.printable)], ["branch=" + BoundedQuoted(e.branch, 256, c.printable)];
    DecimalWord("pull_request=", e.number, 1);
    TextWord("comment_kind=", e.commentKind, 32);
    QuotedWord("commit=", 126, c);
    QuotedWord("branch=", 254, c);
    CostAppend(number, kind);
    CostAppend(number + kind, commit);
    CostAppend(number + kind + commit, branch);
  }

  lemma CrowdedText(c: Setting)
    requires GoodSetting(c)
    ensures Cost(TextFields(Crowded(), c)) == 1303
  {
    hide BoundedQuoted, Bytes, Cost, KnowsAscii;
    var e := Crowded();
    var author, url, title := ["author=" + BoundedQuoted(e.author, 256, c.printable)], ["url=" + BoundedQuoted(e.url, 512, c.printable)], ["title=" + BoundedQuoted(e.title, 512, c.printable)];
    QuotedWord("author=", 254, c);
    QuotedWord("url=", 510, c);
    QuotedWord("title=", 510, c);
    CostAppend(author, url);
    CostAppend(author + url, title);
  }

  lemma CrowdedFields(c: Setting)
    requires GoodSetting(c)
    ensures Cost(Fields(Crowded(), true, c)) >= 2095
  {
    hide ReviewFields, IdentityFields, OptionalFields, TextFields, GoodSetting, Bytes, Cost, Crowded;
    var e := Crowded();
    CrowdedReview(c);
    CrowdedIdentity(c);
    CrowdedOptional(c);
    CrowdedText(c);
    var review, identity, optional, text := ReviewFields(e, c), IdentityFields(e, c), OptionalFields(e, c), TextFields(e, c);
    CostAppend(review, identity);
    CostAppend(review + identity, optional);
    CostAppend(review + identity + optional, text);
  }

  lemma CrowdedFixed(i: nat, c: Setting)
    requires GoodSetting(c)
    ensures Bytes(Fixed(Crowded(), i, true, c)) >= 2115
  {
    hide Fields, Fixed, GoodSetting, Bytes, Cost;
    CrowdedFields(c);
    FieldsCost(Crowded(), true, c);
    FixedCost(Crowded(), i, true, c);
  }

  lemma {:induction false} CrowdedUse(events: seq<Event>, n: nat, c: Setting)
    requires GoodSetting(c) && n <= |events| && forall i | 0 <= i < |events| :: events[i] == Crowded()
    ensures UsedBy(events, n, true, c) >= 2117 * n
  {
    hide Fixed, GoodSetting, Bytes, Crowded;
    if n > 0 {
      CrowdedUse(events, n - 1, c);
      CrowdedFixed(n - 1, c);
    }
  }

  lemma ControlIsFourBytes(printable: char -> bool)
    requires !printable('\U{1}')
    ensures Bytes(Escape('\U{1}', printable)) == 4
  {
    HexIsAscii(1, 2);
    AsciiBytes(Escape('\U{1}', printable));
  }

  lemma {:induction false} ControlsExpand(n: nat, printable: char -> bool)
    requires !printable('\U{1}')
    ensures Bytes(Escaped(Repeat('\U{1}', n), printable)) == 4 * n
  {
    hide Escape, Bytes;
    if n == 0 {
      assert Repeat('\U{1}', n) == "";
      AsciiBytes("");
    } else {
      var s := Repeat('\U{1}', n);
      assert s[..n - 1] == Repeat('\U{1}', n - 1);
      ControlsExpand(n - 1, printable);
      ControlIsFourBytes(printable);
      BytesAppend(Escaped(s[..n - 1], printable), Escape('\U{1}', printable));
      assert s[n - 1] == '\U{1}';
    }
  }

  lemma CrowdedHead(c: Setting)
    requires GoodSetting(c) && !c.printable('\U{1}')
    ensures Bytes(Head(Repeat(WORD, ORIGINAL_MAX - 2), Repeat('\U{1}', URL_MAX), true, c)) == 28_707
  {
    hide BoundedQuoted, Bytes, Quote;
    var original, url := Repeat(WORD, ORIGINAL_MAX - 2), Repeat('\U{1}', URL_MAX);
    WordIsQuoted(original, c.printable);
    KeyedBytes("original_task=", BoundedQuoted(original, ORIGINAL_MAX, c.printable));
    ControlsExpand(URL_MAX, c.printable);
    QuoteBytes(url, c.printable);
    KeyedBytes("; pull_request_url=", Quote(url, c.printable));
    BytesAppend("original_task=" + BoundedQuoted(original, ORIGINAL_MAX, c.printable), "; pull_request_url=" + Quote(url, c.printable));
  }

  /** Without the metadata check the limit would not hold: a full batch with an ASCII
      URL of 4 KiB that consists of control characters exceeds it. */
  lemma ControlUrlOverflows(c: Setting)
    requires GoodSetting(c) && !c.printable('\U{1}')
    ensures var url, events := Repeat('\U{1}', URL_MAX), seq(BATCH_MAX, _ => Crowded());
            && Ascii(url) && |url| == URL_MAX && GoodEvents(events)
            && Bytes(Prompt(Repeat(WORD, ORIGINAL_MAX - 2), url, events, c)) > PROMPT_MAX
  {
    hide Head, UsedBy, Prompt, Bytes;
    var original, url, events := Repeat(WORD, ORIGINAL_MAX - 2), Repeat('\U{1}', URL_MAX), seq(BATCH_MAX, _ => Crowded());
    assert events[0].kind == "review_comment";
    CrowdedHead(c);
    KeyedBytes("; ", c.instructions);
    CrowdedUse(events, BATCH_MAX, c);
    PromptFitsIff(original, url, events, c);
  }

  // --------------------------------------------------------------- what the prompt keeps

  /** The cut is the longest prefix of whole characters that fits. */
  lemma {:induction false} PrefixIsLongest(s: string, limit: nat)
    ensures var p := Prefix(s, limit); p == s || Bytes(p) + Width(s[|p|]) > limit
    ensures Bytes(s) <= limit ==> Prefix(s, limit) == s
  {
    if Bytes(s) > limit && s != "" {
      PrefixIsLongest(s[..|s| - 1], limit);
    }
  }

  function Letters(s: string): string {
    if s == "" then "" else Letters(s[..|s| - 1]) + if IsSpace(s[|s| - 1]) then "" else [s[|s| - 1]]
  }

  lemma {:induction false} LettersAppend(s: string, t: string)
    ensures Letters(s + t) == Letters(s) + Letters(t)
  {
    if t == "" {
      assert s + t == s;
    } else {
      LettersAppend(s, t[..|t| - 1]);
      assert (s + t)[..|s + t| - 1] == s + t[..|t| - 1];
    }
  }

  /** Single spaces between words, and none around them. */
  predicate Spaced(s: string) {
    && (forall i | 0 <= i < |s| && IsSpace(s[i]) :: s[i] == ' ' && 0 < i < |s| - 1 && !IsSpace(s[i + 1]))
  }

  lemma {:induction false} WordsAreSpaced(s: string, out: string, gap: bool)
    requires Spaced(out) && (gap ==> out != "")
    ensures Spaced(Words(s, out, gap))
    decreases |s|
  {
    if s != "" {
      if IsSpace(s[0]) {
        WordsAreSpaced(s[1..], out, out != "");
      } else {
        WordsAreSpaced(s[1..], out + (if gap then " " else "") + [s[0]], false);
      }
    }
  }

  lemma LettersOfStep(out: string, gap: bool, c: char)
    requires !IsSpace(c)
    ensures Letters(out + (if gap then " " else "") + [c]) == Letters(out) + [c]
  {
    var space := if gap then " " else "";
    assert (out + space + [c])[..|out + space|] == out + space;
    LettersAppend(out, space);
    assert Letters(space) == "" by {
      assert " "[..0] == "";
    }
    assert Letters(out) + "" == Letters(out);
  }

  /** Flattening keeps every letter, in order. */
  lemma {:induction false} WordsKeepLetters(s: string, out: string, gap: bool)
    ensures Letters(Words(s, out, gap)) == Letters(out) + Letters(s)
    decreases |s|
  {
    hide IsSpace;
    if s == "" {
      assert Letters(out) + "" == Letters(out);
    } else {
      LettersOfFirst(s);
      if IsSpace(s[0]) {
        WordsKeepLetters(s[1..], out, out != "");
      } else {
        LettersOfStep(out, gap, s[0]);
        WordsKeepLetters(s[1..], out + (if gap then " " else "") + [s[0]], false);
        assert Letters(out) + ([s[0]] + Letters(s[1..])) == (Letters(out) + [s[0]]) + Letters(s[1..]);
      }
    }
  }

  lemma LettersOfFirst(s: string)
    requires s != ""
    ensures Letters(s) == (if IsSpace(s[0]) then "" else [s[0]]) + Letters(s[1..])
  {
    assert s == [s[0]] + s[1..] && [s[0]][..0] == "";
    LettersAppend([s[0]], s[1..]);
  }

  /** Text whose flattened form fits is kept whole: all its letters in order. */
  lemma FittingTextIsKept(value: string, limit: nat)
    ensures var flat := Words(Decontrol(value), "", false);
            && (Bytes(flat) <= limit ==> BoundedText(value, limit) == flat)
            && Spaced(flat) && Letters(flat) == Letters(Decontrol(value))
  {
    WordsAreSpaced(Decontrol(value), "", false);
    WordsKeepLetters(Decontrol(value), "", false);
    PrefixIsLongest(Words(Decontrol(value), "", false), limit);
    assert "" + Letters(Decontrol(value)) == Letters(Decontrol(value));
  }

  /** A value is quoted whole if its flattened form, quoted, fits. */
  lemma FittingValueIsQuoted(value: string, limit: nat, printable: char -> bool)
    requires var flat := Words(Decontrol(value), "", false); limit > 2 && Bytes(flat) + 2 <= limit && Bytes(Quote(flat, printable)) <= limit
    ensures BoundedQuoted(value, limit, printable) == Quote(Words(Decontrol(value), "", false), printable)
  {
    FittingTextIsKept(value, limit - 2);
    hide Words, Quote;
  }

  predicate Contains(s: string, part: string) {
    exists i | 0 <= i <= |s| :: part <= s[i..]
  }

  lemma ContainsSplit(before: string, part: string, after: string)
    ensures Contains(before + part + after, part)
  {
    assert (before + part + after)[|before|..] == part + after;
    assert part <= (before + part + after)[|before|..];
  }

  lemma {:induction false} PartsContain(events: seq<Event>, n: nat, i: nat, review: bool, budget: nat, c: Setting) returns (before: string, after: string)
    requires i < n <= |events|
    ensures Parts(events, n, review, budget, c)
         == before + (Fixed(events[i], i, review, c) + BoundedQuoted(events[i].body, budget, c.printable)) + after
    decreases n
  {
    hide Fixed, BoundedQuoted;
    var last := Fixed(events[n - 1], n - 1, review, c) + BoundedQuoted(events[n - 1].body, budget, c.printable);
    if i == n - 1 {
      before, after := Parts(events, n - 1, review, budget, c) + "; ", "";
      assert before + last + "" == before + last;
    } else {
      before, after := PartsContain(events, n - 1, i, review, budget, c);
      var part := Fixed(events[i], i, review, c) + BoundedQuoted(events[i].body, budget, c.printable);
      assert before + part + after + "; " + last == before + part + (after + "; " + last);
      after := after + "; " + last;
    }
  }

  /** The prompt names every event of the batch, followed by its body within an equal share
      of the room that is left; no larger equal share would fit. */
  lemma PromptNamesEveryEvent(original: string, url: string, events: seq<Event>, i: nat, c: Setting)
    requires i < |events|
    ensures var used, review := Used(original, url, events, c), IsReview(events);
            var budget := BodyBudget(used, |events|);
            && Contains(Prompt(original, url, events, c), Fixed(events[i], i, review, c) + BoundedQuoted(events[i].body, budget, c.printable))
            && (used < PROMPT_MAX ==> used + |events| * (budget + 1) > PROMPT_MAX)
  {
    hide Fixed, BoundedQuoted, Head, Suffix, UsedBy, Contains, Bytes;
    var review, n := IsReview(events), |events|;
    var used := Used(original, url, events, c);
    var budget := BodyBudget(used, n);
    var part := Fixed(events[i], i, review, c) + BoundedQuoted(events[i].body, budget, c.printable);
    var before, after := PartsContain(events, n, i, review, budget, c);
    ContainsSplit(Head(original, url, review, c) + before, part, after + Suffix(review, c));
    assert Head(original, url, review, c) + (before + part + after) + Suffix(review, c)
        == Head(original, url, review, c) + before + part + (after + Suffix(review, c));
    if used < PROMPT_MAX {
      ShareIsLargest(PROMPT_MAX - used, n);
    }
  }

  lemma ShareIsLargest(room: nat, n: nat)
    requires n > 0
    ensures n * (room / n + 1) > room
  {
    assert room == n * (room / n) + room % n;
  }

  /** Each event of a review tells the agent where to reply and under which marker. */
  lemma ReviewsCarryTheirMarker(e: Event, c: Setting)
    ensures var fields := Fields(e, true, c);
            && "reply_marker=" + Marker(c.digest(e.id)) in fields
            && "reply_route=" + Route(e) in fields
            && "comment_id=" + JobNames.Decimal(e.commentId) in fields
            && "event_id=" + BoundedQuoted(e.id, 128, c.printable) in fields
            && "title=" + BoundedQuoted(e.title, 512, c.printable) in fields
            && "author=" + BoundedQuoted(e.author, 256, c.printable) in fields
  {
    hide BoundedQuoted, BoundedText, Marker, Route;
    var id := ["comment_id=" + JobNames.Decimal(e.commentId)] + ["reply_route=" + Route(e)] + ["reply_marker=" + Marker(c.digest(e.id))];
    assert id == ReviewFields(e, c) && id[0] in id && id[1] in id && id[2] in id;
    assert IdentityFields(e, c)[0] in IdentityFields(e, c);
    assert TextFields(e, c)[0] in TextFields(e, c) && TextFields(e, c)[2] in TextFields(e, c);
  }

  // ------------------------------------------------------------------ reading quotes back

  function HexValue(h: string): int {
    if h == "" then 0
    else
      var c := h[|h| - 1];
      16 * HexValue(h[..|h| - 1]) + if '0' <= c <= '9' then c as int - '0' as int else c as int - 'a' as int + 10
  }

  /** The code points a quoted text stands for. */
  function Unescaped(s: string): seq<int>
    decreases |s|
  {
    if s == "" then []
    else if s[0] != '\\' then [s[0] as int] + Unescaped(s[1..])
    else if |s| >= 4 && s[1] == 'x' then [HexValue(s[2..4])] + Unescaped(s[4..])
    else if |s| >= 6 && s[1] == 'u' then [HexValue(s[2..6])] + Unescaped(s[6..])
    else if |s| >= 10 && s[1] == 'U' then [HexValue(s[2..10])] + Unescaped(s[10..])
    else if |s| >= 2 then [Short(s[1])] + Unescaped(s[2..])
    else []
  }

  /** The code point behind a one-letter escape. */
  function Short(c: char): int {
    if c == 'n' then 10 else if c == 'r' then 13 else if c == 't' then 9 else if c == 'a' then 7
    else if c == 'b' then 8 else if c == 'v' then 11 else if c == 'f' then 12 else c as int
  }

  function Power16(k: nat): (p: nat)
    ensures p > 0
  {
    if k == 0 then 1 else 16 * Power16(k - 1)
  }

  lemma {:induction false} HexReadsBack(n: nat, digits: nat)
    requires n < Power16(digits)
    ensures HexValue(Hex(n, digits)) == n
    decreases digits
  {
    if digits > 0 {
      HexReadsBack(n / 16, digits - 1);
      assert Hex(n, digits)[..digits - 1] == Hex(n / 16, digits - 1);
    }
  }

  /** An escape with hexadecimal digits. */
  lemma HexEscapeReadsBack(letter: char, n: nat, digits: nat, rest: string)
    requires n < Power16(digits)
    requires (letter == 'x' && digits == 2) || (letter == 'u' && digits == 4) || (letter == 'U' && digits == 8)
    ensures Unescaped(['\\', letter] + Hex(n, digits) + rest) == [n] + Unescaped(rest)
  {
    hide HexValue, Hex, Power16;
    HexReadsBack(n, digits);
    var s := ['\\', letter] + Hex(n, digits) + rest;
    assert s[2..2 + digits] == Hex(n, digits) && s[2 + digits..] == rest;
  }

  lemma ShortEscapeReadsBack(letter: char, rest: string)
    requires letter !in {'x', 'u', 'U'}
    ensures Unescaped(['\\', letter] + rest) == [Short(letter)] + Unescaped(rest)
  {
    assert (['\\', letter] + rest)[2..] == rest;
  }

  lemma PlainReadsBack(c: char, rest: string)
    requires c != '\\'
    ensures Unescaped([c] + rest) == [c as int] + Unescaped(rest)
  {
    assert ([c] + rest)[1..] == rest;
  }

  lemma EscapeReadsBack(c: char, rest: string, printable: char -> bool)
    ensures Unescaped(Escape(c, printable) + rest) == [c as int] + Unescaped(rest)
  {
    var e := Escape(c, printable);
    hide Hex, Unescaped;
    if |e| == 1 {
      PlainReadsBack(c, rest);
    } else if |e| == 2 {
      ShortEscapeReadsBack(e[1], rest);
      assert e == ['\\', e[1]];
    } else if c < ' ' || c == '\U{7F}' {
      assert Power16(2) == 256;
      HexEscapeReadsBack('x', c as int, 2, rest);
    } else if c < '\U{10000}' {
      assert Power16(4) == 65_536 by { assert Power16(2) == 256; }
      HexEscapeReadsBack('u', c as int, 4, rest);
    } else {
      WideBound();
      HexEscapeReadsBack('U', c as int, 8, rest);
    }
  }

  lemma WideBound()
    ensures Power16(8) == 4_294_967_296
  {
    assert Power16(3) == 4096 && Power16(5) == 1_048_576 && Power16(7) == 268_435_456;
  }

  function Codes(s: string): seq<int> {
    seq(|s|, i requires 0 <= i < |s| => s[i] as int)
  }

  lemma {:induction false} EscapedReadsBack(s: string, rest: string, printable: char -> bool)
    ensures Unescaped(Escaped(s, printable) + rest) == Codes(s) + Unescaped(rest)
  {
    hide Escape, Unescaped;
    if s == "" {
      assert "" + rest == rest && Codes(s) == [] && [] + Unescaped(rest) == Unescaped(rest);
    } else {
      var init, last := s[..|s| - 1], s[|s| - 1];
      EscapedReadsBack(init, Escape(last, printable) + rest, printable);
      EscapeReadsBack(last, rest, printable);
      assert Escaped(init, printable) + Escape(last, printable) + rest == Escaped(init, printable) + (Escape(last, printable) + rest);
      assert Codes(s) == Codes(init) + [last as int];
      assert Codes(init) + ([last as int] + Unescaped(rest)) == Codes(init) + [last as int] + Unescaped(rest);
    }
  }

  /** Quoting loses nothing: what is between the quotes reads back as exactly the text. */
  lemma QuotingReadsBack(s: string, printable: char -> bool)
    ensures var q := Quote(s, printable); |q| >= 2 && q[0] == q[|q| - 1] == '"' && Unescaped(q[1..|q| - 1]) == Codes(s)
  {
    var q := Quote(s, printable);
    assert q[1..|q| - 1] == Escaped(s, printable) && Escaped(s, printable) + "" == Escaped(s, printable);
    EscapedReadsBack(s, "", printable);
    hide Unescaped;
    assert Codes(s) + Unescaped("") == Codes(s) by { EmptyReadsBack(); }
  }

  lemma EmptyReadsBack()
    ensures Unescaped("") == []
  {
  }
}
