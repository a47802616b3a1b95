/** Guest names as text: how the service splits one name into two, and how the
    database puts the two back together to compare them.

    Python and PostgreSQL disagree about whitespace.  `str.strip` and `str.split`
    know every Unicode space; the pattern `\s` knows the six ASCII ones and those
    others that the database's locale adds; `btrim` knows only U+0020. */
module Names {

  datatype Space = Python | Regexp | Blank

  /** The further spaces that the pattern `\s` knows in the database's locale. */
  const LOCALE: set<char>

  predicate PythonSpace(c: char) {
    || c == ' ' || '\t' <= c <= '\r' || '\U{1C}' <= c <= '\U{1F}'
    || c == '\U{85}' || c == '\U{A0}' || c == '\U{1680}' || '\U{2000}' <= c <= '\U{200A}'
    || c == '\U{2028}' || c == '\U{2029}' || c == '\U{202F}' || c == '\U{205F}' || c == '\U{3000}'
  }

  predicate Is(k: Space, c: char) {
    match k
    case Blank => c == ' '
    case Regexp => c == ' ' || '\t' <= c <= '\r' || (c in LOCALE && PythonSpace(c))
    case Python => PythonSpace(c)
  }

  /** The 29 characters for which `str.isspace` holds. */
  const SPACES :=
    "\U{9}\U{A}\U{B}\U{C}\U{D}\U{1C}\U{1D}\U{1E}\U{1F}\U{20}\U{85}\U{A0}\U{1680}\U{2000}\U{2001}\U{2002}" +
    "\U{2003}\U{2004}\U{2005}\U{2006}\U{2007}\U{2008}\U{2009}\U{200A}\U{2028}\U{2029}\U{202F}\U{205F}\U{3000}"

  /** Python takes these for spaces; six of the ASCII ones, and those only, are spaces to the
      pattern in every locale, and the blank alone to `btrim`. */
  lemma SpacesExactly(c: char)
    ensures Is(Python, c) <==> c in SPACES
    ensures LOCALE == {} ==> (Is(Regexp, c) <==> c in "\U{9}\U{A}\U{B}\U{C}\U{D}\U{20}")
    ensures c in "\U{9}\U{A}\U{B}\U{C}\U{D}\U{20}" ==> Is(Regexp, c)
    ensures Is(Regexp, c) ==> Is(Python, c)
    ensures Is(Blank, c) <==> c in "\U{20}"
  {
  }

  const PART_LIMIT := 60

  /** The two new columns' values. */
  datatype Parts = Parts(first: string, last: string)

  // ---- Text operations ----

  function SkipRun(k: Space, s: string): (r: string)
    ensures |r| <= |s|
  {
    if s == "" || !Is(k, s[0]) then s else SkipRun(k, s[1..])
  }

  function DropEnd(k: Space, s: string): (r: string)
    ensures |r| <= |s|
  {
    if s == "" || !Is(k, s[|s| - 1]) then s else DropEnd(k, s[..|s| - 1])
  }

  /** `str.strip()` for Python, `btrim` for Blank. */
  function Trim(k: Space, s: string): string {
    DropEnd(k, SkipRun(k, s))
  }

  /** `regexp_replace(s, '\s+', ' ', 'g')`: every run of spaces becomes one blank. */
  function Collapse(k: Space, s: string): string
    decreases |s|
  {
    if s == "" then ""
    else if Is(k, s[0]) then " " + Collapse(k, SkipRun(k, s[1..]))
    else [s[0]] + Collapse(k, s[1..])
  }

  /** Length of the leading run of characters that are not Python whitespace. */
  function WordLength(s: string): (n: nat)
    ensures n <= |s|
  {
    if s == "" || Is(Python, s[0]) then 0 else 1 + WordLength(s[1..])
  }

  /** `str.split()` with no argument. */
  function Words(s: string): seq<string>
    decreases |s|
  {
    var t := SkipRun(Python, s);
    if t == "" then [] else
      SkipLaw(Python, s);
      var n := WordLength(t);
      [t[..n]] + Words(t[n..])
  }

  /** `" ".join(words)` */
  function Join(words: seq<string>): string {
    if |words| == 0 then ""
    else if |words| == 1 then words[0]
    else words[0] + " " + Join(words[1..])
  }

  /** Position of the first blank, or the length when there is none. */
  function FirstBlank(s: string): (n: nat)
    ensures n <= |s|
  {
    if s == "" || s[0] == ' ' then 0 else 1 + FirstBlank(s[1..])
  }

  /** `s.partition(" ")`, without the separator. */
  function Partition(s: string): Parts {
    var n := FirstBlank(s);
    Parts(s[..n], if n < |s| then s[n + 1..] else "")
  }

  function Cut(s: string): string {
    if |s| <= PART_LIMIT then s else s[..PART_LIMIT]
  }

  // ---- The service and the database ----

  function Cleaned(full: string): string {
    Join(Words(Trim(Python, full)))
  }

  function SplitGuestName(full: string): Parts {
    var cleaned := Cleaned(full);
    if cleaned == "" then Parts("", "") else
      var p := Partition(cleaned);
      Parts(Cut(p.first), Cut(p.last))
  }

  /** How `_fields` shows the two columns: the non-empty ones, joined by a blank. */
  function Shown(p: Parts): string {
    if p.first == "" then p.last
    else if p.last == "" then p.first
    else p.first + " " + p.last
  }

  /** `btrim(concat_ws(' ', first_name, last_name))` for two non-NULL columns. */
  function Rebuilt(p: Parts): string {
    Trim(Blank, p.first + " " + p.last)
  }

  /** The right-hand side of `name_mismatch`. */
  function Legacy(guest: string): string {
    Collapse(Regexp, Trim(Blank, guest))
  }

  // ---- Conditions a caller can check ----

  /** Neither part is longer than its column. */
  predicate Fits(g: string) {
    var p := Partition(Cleaned(g));
    |p.first| <= PART_LIMIT && |p.last| <= PART_LIMIT
  }

  /** Every space in the name is one the database pattern also knows, and once
      blanks are trimmed the name neither starts nor ends with another space. */
  predicate PlainSpaces(g: string) {
    && (forall i :: 0 <= i < |g| && Is(Python, g[i]) ==> Is(Regexp, g[i]))
    && var t := Trim(Blank, g);
       t != "" ==> !Is(Regexp, t[0]) && !Is(Regexp, t[|t| - 1])
  }

  /** The cut, if there is one, does not fall right behind a blank. */
  predicate Settled(g: string) {
    var last := SplitGuestName(g).last;
    last != "" ==> last[|last| - 1] != ' '
  }

  /** Every space is a single blank with a word behind it. */
  predicate TidyTail(t: string) {
    t == "" || (TidyTail(t[1..]) && (Is(Python, t[0]) ==> t[0] == ' ' && |t| > 1 && t[1] != ' '))
  }

  /** One blank between words, none at the ends, no other whitespace. */
  predicate Tidy(t: string) {
    TidyTail(t) && (t != "" ==> t[0] != ' ')
  }

  // ---- What the four scans return ----

  lemma {:induction false} SkipLaw(k: Space, s: string)
    ensures var r := SkipRun(k, s); r == s[|s| - |r|..] && (r != "" ==> !Is(k, r[0]))
  {
    hide Is;
    if s != "" && Is(k, s[0]) { SkipLaw(k, s[1..]); }
  }

  lemma {:induction false} DropLaw(k: Space, s: string)
    ensures var r := DropEnd(k, s); r == s[..|r|] && (r != "" ==> !Is(k, r[|r| - 1]))
  {
    hide Is;
    if s != "" && Is(k, s[|s| - 1]) { DropLaw(k, s[..|s| - 1]); }
  }

  lemma TrimLaw(k: Space, s: string)
    ensures var t := Trim(k, s); |t| <= |s| && (t != "" ==> !Is(k, t[0]) && !Is(k, t[|t| - 1]))
  {
    hide Is;
    SkipLaw(k, s);
    DropLaw(k, SkipRun(k, s));
  }

  lemma {:induction false} WordLaw(s: string)
    ensures var n := WordLength(s);
      (forall i :: 0 <= i < n ==> !Is(Python, s[i])) && (n < |s| ==> Is(Python, s[n]))
  {
    hide Is;
    if s != "" && !Is(Python, s[0]) {
      WordLaw(s[1..]);
      forall i | 0 <= i < WordLength(s) ensures !Is(Python, s[i]) {
        if i > 0 { assert s[i] == s[1..][i - 1]; }
      }
    }
  }

  lemma {:induction false} BlankLaw(s: string)
    ensures var n := FirstBlank(s); (forall i :: 0 <= i < n ==> s[i] != ' ') && (n < |s| ==> s[n] == ' ')
  {
    if s != "" && s[0] != ' ' {
      BlankLaw(s[1..]);
      forall i | 0 <= i < FirstBlank(s) ensures s[i] != ' ' {
        if i > 0 { assert s[i] == s[1..][i - 1]; }
      }
    }
  }

  // ---- Collapsing ----

  lemma {:induction false} CollapseOfTidy(k: Space, t: string)
    requires TidyTail(t) && k != Blank
    ensures Collapse(k, t) == t
    decreases |t|
  {
    if t != "" {
      CollapseOfTidy(k, t[1..]);
      assert t == [t[0]] + t[1..];
    }
  }

  /** Collapsing a string that does not end in a space gives a string that
      starts with a blank exactly when the input starts with a space. */
  lemma {:induction false} CollapseIsTidy(s: string)
    requires s != "" ==> !Is(Python, s[|s| - 1])
    ensures var t := Collapse(Python, s);
      TidyTail(t) && (s == "" <==> t == "") &&
      (s != "" ==> (t[0] == ' ' <==> Is(Python, s[0])))
    decreases |s|
  {
    assert Is(Python, ' ');
    hide Is;
    if s != "" {
      var space := Is(Python, s[0]);
      SkipLaw(Python, s[1..]);
      var u := if space then SkipRun(Python, s[1..]) else s[1..];
      if space && u == "" { AllSpaces(s[1..]); assert false; }
      CollapseIsTidy(u);
      var v := Collapse(Python, u);
      assert Collapse(Python, s) == [if space then ' ' else s[0]] + v;
      assert ([if space then ' ' else s[0]] + v)[1..] == v;
    }
  }

  lemma {:induction false} AllSpaces(s: string)
    requires SkipRun(Python, s) == ""
    ensures forall i :: 0 <= i < |s| ==> Is(Python, s[i])
    decreases |s|
  {
    hide Is;
    if s != "" {
      AllSpaces(s[1..]);
      forall i | 0 <= i < |s| ensures Is(Python, s[i]) {
        if i > 0 { assert s[i] == s[1..][i - 1]; }
      }
    }
  }

  lemma {:induction false} CollapseAgrees(s: string)
    requires forall i :: 0 <= i < |s| && Is(Python, s[i]) ==> Is(Regexp, s[i])
    ensures Collapse(Python, s) == Collapse(Regexp, s)
    decreases |s|
  {
    if s != "" {
      SkipAgrees(s[1..]);
      SkipLaw(Python, s[1..]);
      var u := if Is(Python, s[0]) then SkipRun(Python, s[1..]) else s[1..];
      CollapseAgrees(u);
    }
  }

  lemma {:induction false} SkipAgrees(s: string)
    requires forall i :: 0 <= i < |s| && Is(Python, s[i]) ==> Is(Regexp, s[i])
    ensures SkipRun(Python, s) == SkipRun(Regexp, s)
    decreases |s|
  {
    if s != "" { SkipAgrees(s[1..]); }
  }

  /** A character the pattern does not know survives trimming and collapsing. */
  lemma {:induction false} CollapseKeeps(k: Space, s: string, c: char)
    requires c in s && !Is(k, c)
    ensures c in Collapse(k, s)
    decreases |s|
  {
    hide Is;
    assert s == [s[0]] + s[1..];
    if c != s[0] {
      if Is(k, s[0]) {
        SkipKeeps(k, s[1..], c);
        CollapseKeeps(k, SkipRun(k, s[1..]), c);
      } else {
        CollapseKeeps(k, s[1..], c);
      }
    }
  }

  lemma SkipKeeps(k: Space, s: string, c: char)
    requires c in s && !Is(k, c)
    ensures c in SkipRun(k, s)
  {
  }

  lemma DropKeeps(k: Space, s: string, c: char)
    requires c in s && !Is(k, c)
    ensures c in DropEnd(k, s)
  {
  }

  // ---- strip, split and join amount to collapsing ----

  lemma {:induction false} CollapseWord(s: string, n: nat)
    requires n <= |s| && forall i :: 0 <= i < n ==> !Is(Python, s[i])
    ensures Collapse(Python, s) == s[..n] + Collapse(Python, s[n..])
    decreases n
  {
    hide Is, SkipRun;
    if n == 0 {
      assert s[0..] == s;
    } else {
      var t := s[1..];
      assert Collapse(Python, s) == [s[0]] + Collapse(Python, t);
      hide Collapse;
      CollapseWord(t, n - 1);
      assert t[n - 1..] == s[n..];
      assert s[..n] == [s[0]] + t[..n - 1];
    }
  }

  lemma {:induction false} JoinedWords(s: string)
    requires s != "" ==> !Is(Python, s[0]) && !Is(Python, s[|s| - 1])
    ensures Join(Words(s)) == Collapse(Python, s)
    decreases |s|
  {
    hide Is;
    if s != "" {
      hide Collapse, Join;
      var n := WordLength(s);
      var rest := s[n..];
      WordLaw(s);
      SkipLaw(Python, rest);
      CollapseWord(s, n);
      assert SkipRun(Python, s) == s;
      assert Words(s) == [s[..n]] + Words(rest);
      hide SkipRun, Words;
      JoinedTail(s[..n], rest);
      if rest != "" { JoinedWords(SkipRun(Python, rest)); }
    }
  }

  /** One step of JoinedWords: a word, then what follows it. */
  lemma JoinedTail(word: string, rest: string)
    requires rest != "" ==> Is(Python, rest[0]) && !Is(Python, rest[|rest| - 1])
    ensures var t := SkipRun(Python, rest);
      && (t != "" ==> !Is(Python, t[0]) && !Is(Python, t[|t| - 1]))
      && (rest != "" ==> |t| < |rest|)
      && (Join(Words(t)) == Collapse(Python, t)
          ==> Join([word] + Words(rest)) == word + Collapse(Python, rest))
  {
  }

  lemma CleanedIsTidy(g: string)
    ensures Cleaned(g) == Collapse(Python, Trim(Python, g))
    ensures Tidy(Cleaned(g))
    ensures |Cleaned(g)| <= |g|
  {
    hide Is, Collapse, Words, Join;
    var t := Trim(Python, g);
    TrimLaw(Python, g);
    JoinedWords(t);
    CollapseIsTidy(t);
    CollapseShrinks(t);
  }

  lemma {:induction false} CollapseShrinks(s: string)
    ensures |Collapse(Python, s)| <= |s|
    decreases |s|
  {
    if s != "" {
      CollapseShrinks(if Is(Python, s[0]) then SkipRun(Python, s[1..]) else s[1..]);
    }
  }

  // ---- The two halves of a tidy name ----

  predicate NoSpace(s: string) {
    forall i :: 0 <= i < |s| ==> !Is(Python, s[i])
  }

  predicate OnlyBlanks(s: string) {
    forall i :: 0 <= i < |s| && Is(Python, s[i]) ==> s[i] == ' '
  }

  /** What every split name looks like, cut or not. */
  predicate SplitShape(p: Parts) {
    && NoSpace(p.first) && OnlyBlanks(p.last)
    && |p.first| <= PART_LIMIT && |p.last| <= PART_LIMIT
    && (p.first == "" ==> p.last == "")
    && (p.last != "" ==> p.last[0] != ' ')
  }

  /** What the split of a settled name looks like. */
  predicate Shaped(p: Parts) {
    SplitShape(p) && Tidy(p.last)
  }

  lemma {:induction false} TidyAt(t: string, i: nat)
    requires TidyTail(t) && i <= |t|
    ensures TidyTail(t[i..])
    ensures i < |t| && Is(Python, t[i]) ==> t[i] == ' ' && i + 1 < |t| && t[i + 1] != ' '
    decreases i
  {
    hide Is;
    if i == 0 {
      assert t[0..] == t;
    } else {
      TidyAt(t[1..], i - 1);
      assert t[1..][i - 1..] == t[i..];
    }
  }

  lemma {:induction false} TidyPrefix(t: string, n: nat)
    requires TidyTail(t) && n <= |t| && (n > 0 ==> t[n - 1] != ' ')
    ensures TidyTail(t[..n])
    decreases n
  {
    assert Is(Python, ' ');
    hide Is;
    if n > 0 {
      if n > 1 {
        TidyPrefix(t[1..], n - 1);
        assert t[..n][1..] == t[1..][..n - 1];
      } else {
        assert t[..n][1..] == "";
      }
    }
  }

  lemma {:induction false} TidyWord(word: string, t: string)
    requires NoSpace(word) && TidyTail(t) && (t != "" && word == "" ==> t[0] != ' ')
    requires t != "" && t[0] == ' ' ==> word != ""
    ensures TidyTail(word + t)
    decreases |word|
  {
    hide Is;
    if word == "" {
      assert word + t == t;
    } else {
      assert (word + t)[1..] == word[1..] + t;
      if |word| > 1 {
        TidyWord(word[1..], t);
      } else {
        assert word[1..] + t == t;
      }
    }
  }

  lemma PartitionOfTidy(c: string)
    requires Tidy(c) && c != ""
    ensures var p := Partition(c);
      && p.first != "" && NoSpace(p.first) && OnlyBlanks(p.last) && Tidy(p.last)
      && c == if p.last == "" then p.first else p.first + " " + p.last
  {
    assert Is(Python, ' ');
    hide Is;
    var n := FirstBlank(c);
    BlankLaw(c);
    forall i | 0 <= i < |c| ensures Is(Python, c[i]) ==> c[i] == ' ' && i + 1 < |c| && c[i + 1] != ' ' {
      TidyAt(c, i);
    }
    if n < |c| {
      TidyAt(c, n + 1);
      assert c == c[..n] + " " + c[n + 1..];
    } else {
      assert c[..n] == c;
    }
  }

  lemma {:induction false} FirstBlankAfter(word: string, rest: string)
    requires NoSpace(word) && (rest == "" || rest[0] == ' ')
    ensures FirstBlank(word + rest) == |word|
    decreases |word|
  {
    assert Is(Python, ' ');
    hide Is;
    if word == "" {
      assert word + rest == rest;
    } else {
      assert (word + rest)[1..] == word[1..] + rest;
      FirstBlankAfter(word[1..], rest);
    }
  }

  lemma PartitionOfJoined(first: string, last: string)
    requires NoSpace(first)
    ensures Partition(first) == Parts(first, "")
    ensures Partition(first + " " + last) == Parts(first, last)
  {
    hide Is;
    FirstBlankAfter(first, "");
    assert first + "" == first && first[..|first|] == first;
    FirstBlankAfter(first, " " + last);
    var j := first + " " + last;
    assert first + (" " + last) == j;
    assert j[..|first|] == first && j[|first| + 1..] == last;
  }

  lemma CutIsShaped(p: Parts)
    requires p.first != "" && NoSpace(p.first) && OnlyBlanks(p.last) && Tidy(p.last)
    ensures var q := Parts(Cut(p.first), Cut(p.last));
      SplitShape(q) && q.first != "" && (Tidy(q.last) <==> q.last != "" ==> q.last[|q.last| - 1] != ' ')
  {
    hide Is;
    var q := Parts(Cut(p.first), Cut(p.last));
    assert q.last == p.last[..|q.last|];
    if q.last != "" && q.last[|q.last| - 1] != ' ' {
      TidyPrefix(p.last, |q.last|);
    } else if q.last != "" {
      TidyEnd(q.last);
    }
  }

  lemma SplitIsShaped(g: string)
    ensures SplitShape(SplitGuestName(g))
    ensures Settled(g) <==> Shaped(SplitGuestName(g))
    ensures SplitGuestName(g) == Parts("", "") <==> Cleaned(g) == ""
  {
    CleanedIsTidy(g);
    var c := Cleaned(g);
    hide Is, Cleaned, Partition, Cut, NoSpace, OnlyBlanks, Tidy, TidyTail;
    NothingIsShaped();
    if c != "" {
      PartitionOfTidy(c);
      CutIsShaped(Partition(c));
    }
  }

  lemma NothingIsShaped()
    ensures NoSpace("") && OnlyBlanks("") && Tidy("")
  {
  }

  lemma {:induction false} TidyEnd(t: string)
    requires t != "" && t[|t| - 1] == ' '
    ensures !TidyTail(t)
    decreases |t|
  {
    assert Is(Python, ' ');
    hide Is;
    if |t| > 1 { TidyEnd(t[1..]); }
  }
}
