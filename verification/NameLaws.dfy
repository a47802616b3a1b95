/** The laws that tie the Python split to the database's rebuild. */
module NameLaws {
  import opened Names

  // ---- Trimming ----

  lemma {:induction false} SkipInTwoSteps(s: string)
    ensures SkipRun(Python, SkipRun(Blank, s)) == SkipRun(Python, s)
    decreases |s|
  {
    assert Is(Python, ' ') && Is(Blank, ' ');
    assert s != "" && s[0] != ' ' ==> !Is(Blank, s[0]);
    hide Is;
    if s != "" && s[0] == ' ' { SkipInTwoSteps(s[1..]); }
  }

  lemma {:induction false} DropInTwoSteps(s: string)
    ensures DropEnd(Python, DropEnd(Blank, s)) == DropEnd(Python, s)
    decreases |s|
  {
    assert Is(Python, ' ') && Is(Blank, ' ');
    assert s != "" && s[|s| - 1] != ' ' ==> !Is(Blank, s[|s| - 1]);
    hide Is;
    if s != "" && s[|s| - 1] == ' ' { DropInTwoSteps(s[..|s| - 1]); }
  }

  /** Trimming blanks already trims a name whose trimmed edges are words. */
  lemma StripIsTrim(g: string)
    requires var t := Trim(Blank, g);
      t != "" ==> !Is(Python, t[0]) && !Is(Python, t[|t| - 1])
    ensures Trim(Python, g) == Trim(Blank, g)
  {
    hide Is;
    var x, t := SkipRun(Blank, g), Trim(Blank, g);
    SkipInTwoSteps(g);
    BlankEdges(g);
    DropInTwoSteps(x);
    assert SkipRun(Python, x) == x && DropEnd(Python, t) == t;
  }

  lemma PlainInside(g: string)
    requires PlainSpaces(g)
    ensures var b := Trim(Blank, g);
      && (forall i :: 0 <= i < |b| && Is(Python, b[i]) ==> Is(Regexp, b[i]))
      && (b != "" ==> !Is(Python, b[0]) && !Is(Python, b[|b| - 1]))
  {
    SkipLaw(Blank, g);
    DropLaw(Blank, SkipRun(Blank, g));
  }

  /** With plain spaces, `strip` and `btrim` take off the same characters, so the
      database sees exactly the cleaned name. */
  lemma LegacyOfPlain(g: string)
    requires PlainSpaces(g)
    ensures Legacy(g) == Cleaned(g)
  {
    PlainInside(g);
    StripIsTrim(g);
    CleanedIsTidy(g);
    CollapseAgrees(Trim(Blank, g));
  }

  /** Trimming removes nothing but blanks, so it leaves something unless all is blank. */
  lemma BlankEdges(g: string)
    ensures var x, t := SkipRun(Blank, g), Trim(Blank, g);
      && (t == "" <==> x == "")
      && (t != "" ==> t[0] == x[0] && t[0] != ' ' && t[|t| - 1] != ' ')
  {
    var x := SkipRun(Blank, g);
    SkipLaw(Blank, g);
    DropLaw(Blank, x);
    if x != "" { DropKeeps(Blank, x, x[0]); }
  }

  // ---- The rebuilt name ----

  lemma {:induction false} DropEndOfJoined(a: string, b: string)
    requires DropEnd(Blank, b) != ""
    ensures DropEnd(Blank, a + b) == a + DropEnd(Blank, b)
    decreases |b|
  {
    if b[|b| - 1] == ' ' {
      assert (a + b)[..|a + b| - 1] == a + b[..|b| - 1];
      DropEndOfJoined(a, b[..|b| - 1]);
    }
  }

  lemma RebuiltForm(p: Parts)
    requires SplitShape(p)
    ensures Rebuilt(p) ==
      if p.last == "" then p.first else p.first + " " + DropEnd(Blank, p.last)
    ensures p.last != "" ==> DropEnd(Blank, p.last) != ""
  {
    var j := p.first + " " + p.last;
    if p.first == "" {
      assert j == " ";
    } else {
      assert j[0] == p.first[0] && !Is(Python, p.first[0]);
      assert SkipRun(Blank, j) == j;
      if p.last == "" {
        assert j[..|j| - 1] == p.first && !Is(Python, p.first[|p.first| - 1]);
        assert DropEnd(Blank, j) == DropEnd(Blank, p.first) == p.first;
      } else {
        DropKeeps(Blank, p.last, p.last[0]);
        DropEndOfJoined(p.first + " ", p.last);
      }
    }
  }

  /** The rebuilt name is tidy except for its cut, and never starts or ends in a blank. */
  lemma RebuiltIsTrimmed(p: Parts)
    requires SplitShape(p)
    ensures OnlyBlanks(Rebuilt(p))
    ensures Rebuilt(p) != "" ==> Rebuilt(p)[0] != ' ' && Rebuilt(p)[|Rebuilt(p)| - 1] != ' '
  {
    BlankEdges(p.first + " " + p.last);
    RebuiltForm(p);
    DropLaw(Blank, p.last);
    hide Is, Trim, SkipRun;
  }

  // ---- What the database pattern leaves at the ends ----

  lemma {:induction false} CollapseEnd(s: string)
    requires s != "" && Is(Regexp, s[|s| - 1])
    ensures var t := Collapse(Regexp, s); t != "" && t[|t| - 1] == ' '
    decreases |s|
  {
    hide Is;
    SkipLaw(Regexp, s[1..]);
    var u := if Is(Regexp, s[0]) then SkipRun(Regexp, s[1..]) else s[1..];
    if u != "" {
      CollapseEnd(u);
    }
  }

  /** A name without plain spaces never agrees with a rebuilt name. */
  lemma NotPlainDisagrees(g: string, p: Parts)
    requires !PlainSpaces(g) && SplitShape(p)
    ensures Rebuilt(p) != Legacy(g)
  {
    RebuiltIsTrimmed(p);
    var t := Trim(Blank, g);
    if i :| 0 <= i < |g| && Is(Python, g[i]) && !Is(Regexp, g[i]) {
      SkipKeeps(Blank, g, g[i]);
      DropKeeps(Blank, SkipRun(Blank, g), g[i]);
      CollapseKeeps(Regexp, t, g[i]);
    } else if Is(Regexp, t[0]) {
      assert Legacy(g)[0] == ' ';
    } else {
      CollapseEnd(t);
    }
  }

  // ---- Cutting ----

  lemma TidyKeepsEnd(t: string)
    requires Tidy(t)
    ensures DropEnd(Blank, t) == t
  {
    hide Is;
    NotBlankEnd(t);
    EndNotBlank(t);
  }

  lemma EndNotBlank(t: string)
    ensures t == "" || t[|t| - 1] != ' ' ==> DropEnd(Blank, t) == t
  {
  }

  /** A settled pair is rebuilt to exactly what the service shows. */
  lemma RebuiltOfShaped(p: Parts)
    requires Shaped(p)
    ensures Rebuilt(p) == Shown(p)
  {
    RebuiltForm(p);
    TidyKeepsEnd(p.last);
  }

  lemma SplitUnfolds(g: string)
    ensures var c := Cleaned(g); c != "" ==>
      var p := Partition(c);
      && SplitGuestName(g) == Parts(Cut(p.first), Cut(p.last))
      && p.first != "" && NoSpace(p.first) && Tidy(p.last)
      && c == if p.last == "" then p.first else p.first + " " + p.last
  {
    CleanedIsTidy(g);
    if Cleaned(g) != "" { PartitionOfTidy(Cleaned(g)); }
  }

  /** Rebuilding a fresh split gives the cleaned name back when nothing was cut
      and something strictly shorter when something was. */
  lemma RebuiltOrShorter(g: string)
    ensures if Fits(g) then Rebuilt(SplitGuestName(g)) == Cleaned(g)
            else |Rebuilt(SplitGuestName(g))| < |Cleaned(g)|
    ensures Fits(g) ==> Settled(g)
  {
    hide Is, Cleaned, Tidy, NoSpace, Rebuilt;
    SplitUnfolds(g);
    SplitIsShaped(g);
    var q := SplitGuestName(g);
    RebuiltForm(q);
    CutOnlyShortens(g);
    if Fits(g) && Cleaned(g) != "" {
      TidyKeepsEnd(q.last);
      NotBlankEnd(q.last);
    }
  }

  lemma NotBlankEnd(t: string)
    requires Tidy(t)
    ensures t != "" ==> t[|t| - 1] != ' '
  {
    hide Is;
    if t != "" && t[|t| - 1] == ' ' { TidyEnd(t); }
  }

  lemma CutOnlyShortens(g: string)
    ensures Cleaned(g) == "" ==> Fits(g)
  {
  }

  /** The exact condition under which a freshly written row is not counted as
      mismatched: nothing was cut, and the name uses plain spaces. */
  lemma MismatchLaw(g: string)
    ensures Rebuilt(SplitGuestName(g)) == Legacy(g) <==> Fits(g) && PlainSpaces(g)
  {
    SplitIsShaped(g);
    RebuiltOrShorter(g);
    if PlainSpaces(g) {
      LegacyOfPlain(g);
    } else {
      NotPlainDisagrees(g, SplitGuestName(g));
    }
  }

  /** If a pair of columns agrees with a guest name, whichever name it was once split from,
      it is that name's own split exactly when it does not end in the blank it was cut behind. */
  lemma AgreementMeansSplit(p: Parts, g: string)
    requires SplitShape(p) && Rebuilt(p) == Legacy(g)
    ensures SplitGuestName(g) == p <==> Shaped(p)
    ensures Shaped(p) ==> Settled(g)
  {
    if !PlainSpaces(g) { NotPlainDisagrees(g, p); }
    LegacyOfPlain(g);
    if Shaped(p) {
      RebuiltOfShaped(p);
      SplitOfShown(p, g);
    } else {
      MismatchLaw(g);
      RebuiltOrShorter(g);
    }
    SplitIsShaped(g);
  }

  lemma SplitOfShown(p: Parts, g: string)
    requires Shaped(p) && Cleaned(g) == Shown(p)
    ensures SplitGuestName(g) == p
  {
    PartitionOfJoined(p.first, p.last);
    hide Is, Cleaned, Partition, Tidy, NoSpace;
  }

  lemma CleanedOfTidy(t: string)
    requires Tidy(t)
    ensures Cleaned(t) == t
  {
    CleanedIsTidy(t);
    NotBlankEnd(t);
    TidyEdges(t);
    CollapseOfTidy(Python, t);
    hide Is, Cleaned;
  }

  lemma TidyEdges(t: string)
    requires Tidy(t)
    ensures Trim(Python, t) == t
  {
    NotBlankEnd(t);
    if t != "" {
      TidyAt(t, |t| - 1);
      TidyAt(t, 0);
      hide Is;
      assert SkipRun(Python, t) == t;
    }
  }

  lemma ShownIsTidy(p: Parts)
    requires Shaped(p)
    ensures Tidy(Shown(p))
  {
    hide Is;
    TidyWord(p.first, "");
    assert p.first + "" == p.first;
    if p.last != "" {
      TidyWord(p.first, " " + p.last);
      assert p.first + " " + p.last == p.first + (" " + p.last);
    }
    FirstIsWord(p.first);
  }

  lemma FirstIsWord(s: string)
    requires NoSpace(s)
    ensures s != "" ==> s[0] != ' '
  {
  }

  /** Splitting what the service shows gives the same two columns back exactly
      when the cut did not leave a blank at the end. */
  lemma SplitShownLaw(g: string)
    ensures SplitGuestName(Shown(SplitGuestName(g))) == SplitGuestName(g) <==> Settled(g)
  {
    var p := SplitGuestName(g);
    SplitIsShaped(g);
    if Settled(g) {
      ShownIsTidy(p);
      CleanedOfTidy(Shown(p));
      SplitOfShown(p, Shown(p));
    } else {
      SplitOfUnsettled(p);
    }
  }

  lemma SplitOfUnsettled(p: Parts)
    requires SplitShape(p) && p.last != "" && p.last[|p.last| - 1] == ' '
    ensures SplitGuestName(Shown(p)) != p
  {
    hide Is, Cleaned, SplitGuestName, Tidy, NoSpace, OnlyBlanks, Collapse, Trim;
    var s := Shown(p);
    assert s != "" && s[|s| - 1] == ' ';
    hide Shown;
    CleanedIsTidy(s);
    NotBlankEnd(Cleaned(s));
    UncutByLength(s, p);
  }

  /** A split that shows as much text as there was has cut nothing. */
  lemma UncutByLength(s: string, p: Parts)
    requires p.first != "" && p.last != "" && s == Shown(p)
    ensures SplitGuestName(s) == p ==> Cleaned(s) == s
  {
    var c := Cleaned(s);
    SplitUnfolds(s);
    CleanedIsTidy(s);
    assert c == "" ==> SplitGuestName(s) == Parts("", "");
  }

  /** The database's rebuild agrees with the text the service shows exactly when
      the cut did not leave a blank at the end. */
  lemma ShownAgreesWithRebuild(g: string)
    ensures Shown(SplitGuestName(g)) == Rebuilt(SplitGuestName(g)) <==> Settled(g)
  {
    SplitIsShaped(g);
    RebuiltIsTrimmed(SplitGuestName(g));
    if Settled(g) { RebuiltOfShaped(SplitGuestName(g)); }
    hide Is, SplitGuestName, Rebuilt, OnlyBlanks, NoSpace, Tidy;
  }

  lemma ShownOrShorter(g: string)
    ensures if Fits(g) then Shown(SplitGuestName(g)) == Cleaned(g)
            else |Shown(SplitGuestName(g))| < |Cleaned(g)|
  {
    SplitUnfolds(g);
    CutOnlyShortens(g);
    hide Is, Cleaned, Tidy, NoSpace, Partition;
  }

  /** The two columns show a name unchanged exactly when it is tidy and fits. */
  lemma ShownExactly(g: string)
    ensures Shown(SplitGuestName(g)) == g <==> Tidy(g) && Fits(g)
  {
    CleanedIsTidy(g);
    ShownOrShorter(g);
    if Tidy(g) { CleanedOfTidy(g); }
  }

  /** What the contract step's downgrade puts into guest_name: it always agrees
      with the two columns, and never needs more room than the name it came from. */
  lemma RebuiltRoundTrip(g: string)
    ensures var p := SplitGuestName(g);
      && Legacy(Rebuilt(p)) == Rebuilt(p)
      && |Rebuilt(p)| <= |g|
      && (Settled(g) ==> SplitGuestName(Rebuilt(p)) == p)
  {
    hide Is, Cleaned, SplitGuestName, Rebuilt, Legacy, Tidy, NoSpace, OnlyBlanks;
    var p := SplitGuestName(g);
    SplitIsShaped(g);
    CleanedIsTidy(g);
    RebuiltOrShorter(g);
    RebuiltIsTidy(g);
    LegacyOfTidy(Rebuilt(p));
    if Settled(g) { AgreementMeansSplit(p, Rebuilt(p)); }
  }

  lemma LegacyOfTidy(t: string)
    requires Tidy(t)
    ensures Legacy(t) == t
  {
    NotBlankEnd(t);
    CollapseOfTidy(Regexp, t);
    hide Is;
    assert SkipRun(Blank, t) == t by { assert Is(Blank, 'x') <==> 'x' == ' '; }
    EndNotBlank(t);
  }

  lemma RebuiltIsTidy(g: string)
    ensures Tidy(Rebuilt(SplitGuestName(g)))
  {
    SplitUnfolds(g);
    SplitIsShaped(g);
    RebuiltForm(SplitGuestName(g));
    if Cleaned(g) == "" {
      NothingIsShaped();
    } else {
      CutShownIsTidy(SplitGuestName(g), Partition(Cleaned(g)).last);
    }
  }

  lemma CutShownIsTidy(q: Parts, last: string)
    requires SplitShape(q) && Tidy(last) && q.last == Cut(last) && q.first != ""
    ensures var d := DropEnd(Blank, q.last);
      Tidy(if q.last == "" then q.first else q.first + " " + d)
  {
    CutLastIsTidy(last);
    var d := DropEnd(Blank, q.last);
    DropLaw(Blank, q.last);
    RebuiltForm(q);
    hide Is, Rebuilt;
    ShownIsTidy(Parts(q.first, d));
  }

  lemma CutLastIsTidy(last: string)
    requires Tidy(last)
    ensures var d := DropEnd(Blank, Cut(last));
      Tidy(d) && |d| <= PART_LIMIT
  {
    var d := DropEnd(Blank, Cut(last));
    DropLaw(Blank, Cut(last));
    assert d == last[..|d|];
    assert d != "" ==> d[|d| - 1] != ' ';
    hide Is;
    TidyPrefix(last, |d|);
  }

  // ---- The limit in numbers ----

  function Sixty(s: string): string {
    if |s| <= 60 then s else s[..60]
  }

  lemma {:induction false} BlankAt(first: string, rest: string)
    requires forall i :: 0 <= i < |first| ==> first[i] != ' '
    requires rest == "" || rest[0] == ' '
    ensures FirstBlank(first + rest) == |first|
    decreases |first|
  {
    if first == "" {
      assert first + rest == rest;
    } else {
      assert (first + rest)[1..] == first[1..] + rest;
      BlankAt(first[1..], rest);
    }
  }

  /** The first word, and all that follows it, are stored whole up to 60 characters; of more
      than that exactly the first 60 are. */
  lemma SplitKeepsSixty(g: string, first: string, last: string)
    requires forall i :: 0 <= i < |first| ==> first[i] != ' '
    requires Cleaned(g) == if last == "" then first else first + " " + last
    requires first == "" ==> last == ""
    ensures SplitGuestName(g) == Parts(Sixty(first), Sixty(last))
  {
    hide Cleaned;
    var c, rest := Cleaned(g), if last == "" then "" else " " + last;
    assert c == first + rest;
    BlankAt(first, rest);
    if last != "" { assert c[|first| + 1..] == last; }
  }

  /** So a name of up to 60 characters is shown as it is, spacing aside; a longer one need
      not be, though guest_name has room for 120. */
  lemma ShortNamesAreKept(g: string)
    ensures |g| <= 60 ==> Fits(g) && Shown(SplitGuestName(g)) == Cleaned(g)
  {
    CleanedIsTidy(g);
    ShownOrShorter(g);
    SplitUnfolds(g);
  }

  lemma LongWordsAreCut(g: string)
    requires 60 < |g| <= 120 && forall i :: 0 <= i < |g| ==> !Is(Python, g[i])
    ensures Cleaned(g) == g && SplitGuestName(g) == Parts(g[..60], "") && Shown(SplitGuestName(g)) != g
  {
    assert Is(Python, ' ');
    hide Is, Cleaned;
    WordIsClean(g);
    SplitKeepsSixty(g, g, "");
  }

  lemma WordIsClean(g: string)
    requires g != "" && forall i :: 0 <= i < |g| ==> !Is(Python, g[i])
    ensures Cleaned(g) == g
  {
    hide Is;
    assert Trim(Python, g) == g;
    CleanedIsTidy(g);
    CollapseWord(g, |g|);
    assert g[|g|..] == "" && Collapse(Python, "") == "";
    hide Cleaned, Trim;
  }
}
