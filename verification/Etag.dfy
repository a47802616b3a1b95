/** If-Match and ETag: sections 13.1.1 and 8.8.3 of RFC 9110, and the 428 reply
    of section 3 of RFC 6585.  Weak tags, lists and `*` are accepted too. */
module Etag {
  import opened Names
  import opened Store

  datatype Verdict = Pass | Required428 | Failed412

  /** `str(version)` */
  function Digits(n: nat): (s: string)
    ensures s != ""
    ensures forall i :: 0 <= i < |s| ==> '0' <= s[i] <= '9'
    decreases n
  {
    if n < 10 then [Digit(n)] else Digits(n / 10) + [Digit(n % 10)]
  }

  function Digit(d: nat): (c: char)
    requires d < 10
    ensures '0' <= c <= '9' && (c as int) - 48 == d
  {
    (d + 48) as char
  }

  function Tag(version: nat): string {
    "\"" + Digits(version) + "\""
  }

  function FirstComma(s: string): (n: nat)
    ensures n <= |s| && (n < |s| ==> s[n] == ',')
    ensures forall i :: 0 <= i < n ==> s[i] != ','
  {
    if s == "" || s[0] == ',' then 0 else 1 + FirstComma(s[1..])
  }

  /** `header.split(",")` */
  function Items(header: string): seq<string>
    decreases |header|
  {
    var n := FirstComma(header);
    if n == |header| then [header] else [header[..n]] + Items(header[n + 1..])
  }

  function SkipQuotes(s: string): string {
    if s == "" || s[0] != '"' then s else SkipQuotes(s[1..])
  }

  function DropQuotes(s: string): string {
    if s == "" || s[|s| - 1] != '"' then s else DropQuotes(s[..|s| - 1])
  }

  /** `item.strip().removeprefix("W/").strip('"')` */
  function Opaque(item: string): string {
    var t := Trim(Python, item);
    var u := if "W/" <= t then t[2..] else t;
    DropQuotes(SkipQuotes(u))
  }

  /** Some item of the header is this tag. */
  predicate Mentions(header: string, tag: string) {
    exists i :: 0 <= i < |Items(header)| && Opaque(Items(header)[i]) == tag
  }

  function CheckIfMatch(header: Option<string>, version: nat, required: bool): Verdict {
    match header
    case None => if required then Required428 else Pass
    case Some(h) =>
      var seen := set i | 0 <= i < |Items(h)| :: Opaque(Items(h)[i]);
      if "*" !in seen && Digits(version) !in seen then Failed412 else Pass
  }

  // ---- Laws ----

  lemma {:induction false} DigitsInjective(m: nat, n: nat)
    ensures Digits(m) == Digits(n) <==> m == n
    decreases m
  {
    if m >= 10 && n >= 10 {
      DigitsInjective(m / 10, n / 10);
      var a, b := Digits(m), Digits(n);
      assert a[..|a| - 1] == Digits(m / 10) && b[..|b| - 1] == Digits(n / 10);
      assert a[|a| - 1] == Digit(m % 10) && b[|b| - 1] == Digit(n % 10);
    }
  }

  /** Reading a decimal number. */
  function Value(s: string): nat
    requires forall i :: 0 <= i < |s| ==> '0' <= s[i] <= '9'
  {
    if s == "" then 0 else 10 * Value(s[..|s| - 1]) + (s[|s| - 1] as int - '0' as int)
  }

  /** The digits are the decimal ones of the version, with no zero in front. */
  lemma {:induction false} DigitsAreDecimal(n: nat)
    ensures Value(Digits(n)) == n && (n > 0 ==> Digits(n)[0] != '0')
    decreases n
  {
    var s := Digits(n);
    if n < 10 {
      assert s[..0] == "";
    } else {
      DigitsAreDecimal(n / 10);
      assert s[..|s| - 1] == Digits(n / 10) && s[|s| - 1] == Digit(n % 10);
    }
  }

  lemma {:induction false} NoComma(s: string)
    requires forall i :: 0 <= i < |s| ==> s[i] != ','
    ensures FirstComma(s) == |s| && Items(s) == [s]
    decreases |s|
  {
  }

  lemma FirstCommaOfList(a: string, b: string)
    ensures FirstComma(a + "," + b) == FirstComma(a)
  {
    hide FirstComma;
    var n, h := FirstComma(a), a + "," + b;
    assert h[n] == ',';
    assert forall i :: 0 <= i < n ==> h[i] == a[i];
  }

  /** The list of two joined headers is the two lists, one after the other. */
  lemma {:induction false} ItemsOfList(a: string, b: string)
    ensures Items(a + "," + b) == Items(a) + Items(b)
    decreases |a|
  {
    hide FirstComma, Items;
    var n, h := FirstComma(a), a + "," + b;
    FirstCommaOfList(a, b);
    ItemsAt(h, n);
    if n == |a| {
      assert h[..n] == a && h[n + 1..] == b;
      ItemsAlone(a);
    } else {
      var rest := a[n + 1..];
      ItemsAt(a, n);
      assert h[..n] == a[..n] && h[n + 1..] == rest + "," + b;
      ItemsOfList(rest, b);
      assert [a[..n]] + (Items(rest) + Items(b)) == [a[..n]] + Items(rest) + Items(b);
    }
  }

  lemma ItemsAlone(s: string)
    requires FirstComma(s) == |s|
    ensures Items(s) == [s]
  {
  }

  lemma ItemsAt(s: string, n: nat)
    requires n < |s| && FirstComma(s) == n
    ensures Items(s) == [s[..n]] + Items(s[n + 1..])
  {
  }

  lemma OpaqueOfTag(version: nat)
    ensures Opaque(Tag(version)) == Digits(version)
    ensures Opaque("W/" + Tag(version)) == Digits(version)
  {
    hide Digits, Is, Trim, SkipQuotes, DropQuotes;
    var d := Digits(version);
    Unquoted(d);
    QuotedEdges(d);
    var w := "W/" + Tag(version);
    assert "W/" <= w && w[2..] == Tag(version);
  }

  lemma QuotedEdges(d: string)
    ensures var t := "\"" + d + "\"";
      Trim(Python, t) == t && Trim(Python, "W/" + t) == "W/" + t && !("W/" <= t)
  {
  }

  lemma Unquoted(d: string)
    requires d != "" && d[0] != '"' && d[|d| - 1] != '"'
    ensures DropQuotes(SkipQuotes("\"" + d + "\"")) == d
  {
  }

  lemma CheckMeans(header: string, version: nat, required: bool)
    ensures CheckIfMatch(Some(header), version, required) == Pass
      <==> Mentions(header, "*") || Mentions(header, Digits(version))
    ensures CheckIfMatch(Some(header), version, required) != Required428
  {
  }

  lemma SingleItem(header: string, tag: string)
    requires Items(header) == [header]
    ensures Mentions(header, tag) <==> Opaque(header) == tag
  {
    if Opaque(header) == tag { assert Opaque(Items(header)[0]) == tag; }
  }

  /** The tag handed out with one version, strong or weak, passes for exactly
      that version. */
  lemma TagMatchesItsVersion(handedOut: nat, current: nat, required: bool)
    ensures CheckIfMatch(Some(Tag(handedOut)), current, required) == Pass <==> handedOut == current
    ensures CheckIfMatch(Some("W/" + Tag(handedOut)), current, required) == Pass <==> handedOut == current
  {
    hide Digits, Opaque, Items, CheckIfMatch, FirstComma;
    OpaqueOfTag(handedOut);
    DigitsInjective(handedOut, current);
    NoComma(Tag(handedOut));
    NoComma("W/" + Tag(handedOut));
    SingleTag(Tag(handedOut), handedOut, current, required);
    SingleTag("W/" + Tag(handedOut), handedOut, current, required);
  }

  lemma SingleTag(header: string, handedOut: nat, current: nat, required: bool)
    requires Items(header) == [header] && Opaque(header) == Digits(handedOut)
    requires Digits(handedOut) == Digits(current) <==> handedOut == current
    ensures CheckIfMatch(Some(header), current, required) == Pass <==> handedOut == current
  {
    hide Digits, Opaque, Items, Tag;
    CheckMeans(header, current, required);
    SingleItem(header, "*");
    SingleItem(header, Digits(current));
    assert Digits(handedOut)[0] != '*';
  }

  /** A list passes exactly when one of its two halves does. */
  lemma ListMatchesEither(a: string, b: string, current: nat, required: bool)
    ensures CheckIfMatch(Some(a + "," + b), current, required) == Pass <==>
      || CheckIfMatch(Some(a), current, required) == Pass
      || CheckIfMatch(Some(b), current, required) == Pass
  {
    hide Opaque, Digits, Items;
    CheckMeans(a + "," + b, current, required);
    CheckMeans(a, current, required);
    CheckMeans(b, current, required);
    MentionsOfList(a, b, "*");
    MentionsOfList(a, b, Digits(current));
  }

  lemma MentionsOfList(a: string, b: string, tag: string)
    ensures Mentions(a + "," + b, tag) <==> Mentions(a, tag) || Mentions(b, tag)
  {
    ItemsOfList(a, b);
    hide Opaque, Items;
    var xs, ys, zs := Items(a), Items(b), Items(a + "," + b);
    if Mentions(a, tag) {
      var i :| 0 <= i < |xs| && Opaque(xs[i]) == tag;
      assert Opaque(zs[i]) == tag;
    }
    if Mentions(b, tag) {
      var i :| 0 <= i < |ys| && Opaque(ys[i]) == tag;
      assert Opaque(zs[|xs| + i]) == tag;
    }
    if Mentions(a + "," + b, tag) {
      var i :| 0 <= i < |zs| && Opaque(zs[i]) == tag;
      if i < |xs| { assert Opaque(xs[i]) == tag; } else { assert Opaque(ys[i - |xs|]) == tag; }
    }
  }

  /** `*` passes for every version; with no header the answer depends only on
      whether the operation insists on one. */
  lemma WildcardAndNone(current: nat, required: bool)
    ensures CheckIfMatch(Some("*"), current, required) == Pass
    ensures CheckIfMatch(None, current, required) == if required then Required428 else Pass
  {
    NoComma("*");
    hide Items, Opaque, Digits, FirstComma;
    SingleItem("*", "*");
    CheckMeans("*", current, required);
  }

  // ---- Headers as clients write them ----

  /** What a client may put between two commas. */
  datatype Entry = Strong(version: nat) | Weak(version: nat) | Bare(version: nat) | Star | QuotedStar

  function Text(e: Entry): string {
    match e
    case Strong(version) => "\"" + Digits(version) + "\""
    case Weak(version) => "W/\"" + Digits(version) + "\""
    case Bare(version) => Digits(version)
    case Star => "*"
    case QuotedStar => "\"*\""
  }

  predicate Admits(e: Entry, version: nat) {
    e.Star? || e.QuotedStar? || e.version == version
  }

  predicate Spaces(s: string) {
    forall i :: 0 <= i < |s| ==> Is(Python, s[i])
  }

  /** An entry with any spaces around it. */
  datatype Padded = Padded(before: string, entry: Entry, after: string)

  function Written(p: Padded): string {
    p.before + Text(p.entry) + p.after
  }

  /** The entries with commas between them. */
  function Header(ps: seq<Padded>): string
    requires ps != []
  {
    if |ps| == 1 then Written(ps[0]) else Written(ps[0]) + "," + Header(ps[1..])
  }

  lemma {:induction false} SkipsSpaces(a: string, t: string)
    requires Spaces(a) && t != "" && !Is(Python, t[0])
    ensures SkipRun(Python, a + t) == t
    decreases |a|
  {
    hide Is;
    if a == "" {
      assert a + t == t;
    } else {
      assert (a + t)[1..] == a[1..] + t;
      SkipsSpaces(a[1..], t);
    }
  }

  lemma {:induction false} DropsSpaces(t: string, b: string)
    requires Spaces(b) && t != "" && !Is(Python, t[|t| - 1])
    ensures DropEnd(Python, t + b) == t
    decreases |b|
  {
    hide Is;
    if b == "" {
      assert t + b == t;
    } else {
      assert (t + b)[..|t + b| - 1] == t + b[..|b| - 1];
      DropsSpaces(t, b[..|b| - 1]);
    }
  }

  lemma TextIsSolid(e: Entry)
    ensures var t := Text(e);
      && t != "" && !Is(Python, t[0]) && !Is(Python, t[|t| - 1])
      && forall i :: 0 <= i < |t| ==> t[i] != ','
  {
    if e.Strong? || e.Weak? || e.Bare? {
      var d := Digits(e.version);
      assert d[0] != ',' && d[|d| - 1] != ',';
    }
  }

  lemma TrimOfWritten(p: Padded)
    requires Spaces(p.before) && Spaces(p.after)
    ensures Trim(Python, Written(p)) == Text(p.entry)
  {
    TextIsSolid(p.entry);
    hide Is, Text;
    var t := Text(p.entry);
    SkipsSpaces(p.before, t + p.after);
    assert p.before + t + p.after == p.before + (t + p.after);
    DropsSpaces(t, p.after);
  }

  /** Which tag an item is. */
  lemma OpaqueOfWritten(p: Padded)
    requires Spaces(p.before) && Spaces(p.after)
    ensures Opaque(Written(p)) == if p.entry.Star? || p.entry.QuotedStar? then "*" else Digits(p.entry.version)
  {
    hide Digits, Is, Trim, Written;
    TrimOfWritten(p);
    match p.entry {
      case Strong(v) => Unquoted(Digits(v));
      case Weak(v) =>
        Unquoted(Digits(v));
        assert Text(p.entry)[2..] == "\"" + Digits(v) + "\"";
      case Bare(v) =>
      case Star =>
      case QuotedStar =>
        Unquoted("*");
        assert Text(p.entry) == "\"" + "*" + "\"" && Text(p.entry)[0] != 'W';
    }
  }

  lemma WrittenIsOneItem(p: Padded)
    requires Spaces(p.before) && Spaces(p.after)
    ensures Items(Written(p)) == [Written(p)]
  {
    TextIsSolid(p.entry);
    assert !Is(Python, ',');
    hide Is, Text, Items, FirstComma;
    var s, n := Written(p), |p.before|;
    forall i | 0 <= i < |s| ensures s[i] != ',' {
      if i < n { assert s[i] == p.before[i]; }
      else if i < n + |Text(p.entry)| { assert s[i] == Text(p.entry)[i - n]; }
      else { assert s[i] == p.after[i - n - |Text(p.entry)|]; }
    }
    NoComma(s);
  }

  lemma OnePasses(p: Padded, current: nat, required: bool)
    requires Spaces(p.before) && Spaces(p.after)
    ensures CheckIfMatch(Some(Written(p)), current, required) == Pass <==> Admits(p.entry, current)
  {
    hide Digits, Opaque, Items, Written, Spaces, CheckIfMatch;
    var h := Written(p);
    OpaqueOfWritten(p);
    WrittenIsOneItem(p);
    CheckMeans(h, current, required);
    SingleItem(h, "*");
    SingleItem(h, Digits(current));
    if !p.entry.Star? && !p.entry.QuotedStar? {
      DigitsInjective(p.entry.version, current);
      assert Digits(p.entry.version)[0] != '*';
    }
    assert Digits(current)[0] != '*';
  }

  /** A header of any number of entries, strong, weak or without quotes, with any spaces around
      them, passes exactly when the current version or the star is among them. */
  lemma {:induction false} HeaderPassesExactly(ps: seq<Padded>, current: nat, required: bool)
    requires ps != [] && forall k :: 0 <= k < |ps| ==> Spaces(ps[k].before) && Spaces(ps[k].after)
    ensures CheckIfMatch(Some(Header(ps)), current, required) == Pass <==>
      exists k :: 0 <= k < |ps| && Admits(ps[k].entry, current)
    decreases |ps|
  {
    hide CheckIfMatch, Written, Admits, Spaces;
    OnePasses(ps[0], current, required);
    if |ps| > 1 {
      HeaderPassesExactly(ps[1..], current, required);
      ListMatchesEither(Written(ps[0]), Header(ps[1..]), current, required);
      if exists k :: 0 <= k < |ps| && Admits(ps[k].entry, current) {
        var k :| 0 <= k < |ps| && Admits(ps[k].entry, current);
        assert k > 0 ==> ps[1..][k - 1] == ps[k];
      }
    }
  }
}
