/** Why the migration has to be driven with discipline: runs that break one hypothesis of
    the fidelity theorem, and end with a client that is served the wrong name or an error. */
module Races {
  import opened Names
  import opened NameLaws
  import opened Store
  import opened Migration
  import opened Protocol
  import opened Phases
  import opened Fidelity
  import opened Guard
  import opened Runbook
  import Etag

  // ---- Building runs ----

  /** `s` can be reached from some table at revision 0001. */
  ghost predicate Reachable(s: Sys) {
    exists s0, steps :: Init(s0) && Run(s0, steps) && After(s0, steps) == s
  }

  lemma Then(s: Sys, step: Step)
    requires Reachable(s) && Enabled(s, step)
    ensures Reachable(Apply(s, step))
  {
    var s0, steps :| Init(s0) && Run(s0, steps) && After(s0, steps) == s;
    hide Enabled, Apply, Init;
    assert Run(s, [step]) && After(s, [step]) == Apply(s, step) by { assert [step][1..] == []; }
    hide Run, After;
    RunInTwo(s0, steps, [step]);
  }

  lemma Ran(s0: Sys, steps: seq<Step>, t: Sys)
    requires Init(s0) && Goes(s0, steps, t, false)
    ensures Reachable(t)
  {
  }

  /** One row with this name, at revision 0001. */
  function One(name: string): Sys {
    Sys(Schema(true, false, false, false, false, false), map[1 := Row(NameCols(Some(name), None, None), 0)], 1,
        LegacyPhase, map[], map[], map[], map[1 := name], false)
  }

  /** After expand, dual_write and backfill; and, for a clean name, in new_only before 0004. */
  lemma Begins(name: string)
    ensures Reachable(Prepared(One(name)))
    ensures Clean(name) ==> Reachable(Switched(One(name)))
  {
    hide Prepared, Switched, Goes, Clean, Change, Reachable;
    var s := One(name);
    PrepareGoes(s);
    Weaker(s, Prepare(s), Prepared(s), false);
    Ran(s, Prepare(s), Prepared(s));
    if Clean(name) {
      assert AllClean(s.last);
      SwitchGoes(s);
      GoesOn(s, Prepare(s), Prepared(s), SWITCH, Switched(s), true);
      Weaker(s, Prepare(s) + SWITCH, Switched(s), false);
      Ran(s, Prepare(s) + SWITCH, Switched(s));
    }
  }

  lemma Allow(s: Sys, k: nat, target: Phase)
    requires Reachable(s) && k !in s.puts && Accepts(target, StateOf(s.schema, s.rows))
    ensures Reachable(s.(puts := s.puts[k := Allowed(target)]))
  {
    hide Reachable, StateOf, Accepts, Enabled, Apply, Counted;
    Counts(s, k, target);
    Then(s, Count(k, target));
    Decides(s, k, target);
    Then(Counted(s, k, target), Check(k));
  }

  lemma Switch(s: Sys, k: nat, target: Phase)
    requires Reachable(s) && k !in s.puts && Accepts(target, StateOf(s.schema, s.rows))
    ensures Reachable(InPhase(s, target))
  {
    hide Reachable, StateOf, Accepts, Enabled, Apply, InPhase;
    Allow(s, k, target);
    Enters(s, k, target);
    Then(Decided(s, k, target), Enter(k));
  }

  /** A request up to the point where its row has arrived. */
  function Loaded(s: Sys, goal: Goal, id: int): Request
    requires id in s.rows && id in s.last
  {
    Fetched(goal, id, ReadColumns(s.phase), s.rows[id].names, s.rows[id].version, s.last[id], true)
  }

  lemma Loads(s: Sys, r: nat, goal: Goal, id: int)
    requires Reachable(s) && r !in s.reqs && id in s.rows && id in s.last && AllPresent(s.schema, ReadColumns(s.phase))
    ensures Reachable(Set(s, r, Loaded(s, goal, id)))
  {
    hide Reachable, AllPresent, ReadColumns;
    var q1, q2 := Accepted(goal, id), Querying(goal, id, ReadColumns(s.phase));
    Then(s, Arrive(r, goal, id));
    Then(Set(s, r, q1), Query(r));
    assert Set(Set(s, r, q1), r, q2) == Set(s, r, q2);
    assert Set(Set(s, r, q2), r, Loaded(s, goal, id)) == Set(s, r, Loaded(s, goal, id));
    Then(Set(s, r, q2), Fetch(r));
  }

  lemma Shows(s: Sys, r: nat, id: int) returns (t: Sys)
    requires Reachable(s) && r !in s.reqs && id in s.rows && id in s.last && AllPresent(s.schema, ReadColumns(s.phase))
    ensures Reachable(t) && r in t.reqs && t.reqs[r] == Answered(Answer(s, id))
  {
    hide Reachable, Render, ReadColumns, AllPresent;
    Loads(s, r, Show, id);
    var u := Set(s, r, Loaded(s, Show, id));
    Then(u, Resume(r));
    t := DoResume(u, r);
  }

  /** A rename, from the request to its commit. */
  function RenamedTo(s: Sys, r: nat, id: int, name: string): Sys
    requires id in s.rows
  {
    s.(reqs := s.reqs[r := Committed(id)], clock := s.clock + 1, last := s.last[id := name],
       rows := s.rows[id := Row(WriteName(s.rows[id].names, WriteColumns(s.phase), name), s.clock)])
  }

  lemma Renames(s: Sys, r: nat, id: int, name: string)
    requires Reachable(s) && r !in s.reqs && id in s.rows && id in s.last && id !in s.batch
    requires AllPresent(s.schema, ReadColumns(s.phase)) && AllPresent(s.schema, WriteColumns(s.phase))
    requires NetChange(ReadColumns(s.phase), s.rows[id].names, WriteColumns(s.phase), name)
    ensures Reachable(RenamedTo(s, r, id, name))
  {
    hide Reachable, ReadColumns, WriteColumns, AllPresent, NetChange, WriteName, Etag.CheckIfMatch, Etag.Tag;
    var version := s.rows[id].version;
    var goal := Edit(Some(name), false, Some(Etag.Tag(version)), true);
    Etag.TagMatchesItsVersion(version, version, true);
    Loads(s, r, goal, id);
    var u, q := Set(s, r, Loaded(s, goal, id)), Updating(id, Some(name), WriteColumns(s.phase), version);
    Then(u, Resume(r));
    assert Set(u, r, q) == Set(s, r, q);
    Then(Set(s, r, q), Commit(r, 0));
    assert DoCommit(Set(s, r, q), r, 0) == RenamedTo(s, r, id, name);
  }

  /** A booking prepared for the columns of the phase. */
  lemma Prepares(s: Sys, r: nat, name: string)
    requires Reachable(s) && r !in s.reqs
    ensures Reachable(Set(s, r, Inserting(name, WriteColumns(s.phase))))
  {
    hide Reachable;
    Then(s, Book(r, name));
  }

  /** The same, committed. */
  function Booked(s: Sys, r: nat, id: int, cols: seq<Column>, name: string): Sys {
    s.(reqs := s.reqs[r := Committed(id)], clock := s.clock + 1, last := s.last[id := name],
       rows := s.rows[id := Row(WriteName(NoNames, cols, name), s.clock)])
  }

  lemma Books(s: Sys, r: nat, id: int, cols: seq<Column>, name: string)
    requires Reachable(s) && r in s.reqs && s.reqs[r] == Inserting(name, cols) && id !in s.rows
    requires AllPresent(s.schema, cols) && CoversMandatory(s.schema, cols)
    ensures Reachable(Booked(s, r, id, cols, name))
  {
    hide Reachable, AllPresent, CoversMandatory, WriteName;
    Then(s, Commit(r, id));
    assert DoCommit(s, r, id) == Booked(s, r, id, cols, name);
  }

  // ---- What goes wrong ----

  /** A reachable state in which a GET is answered with another text than the name last
      committed when the row was read. */
  ghost predicate Misleads(cols: seq<Column>, text: string, seen: string) {
    text != View(cols, seen) && exists id, version :: Served(Shown(id, cols, text, seen, version, true))
  }

  ghost predicate Served(reply: Reply) {
    exists s, r :: Reachable(s) && r in s.reqs && s.reqs[r] == Answered(reply)
  }

  /** A reachable state of this phase and schema in which a request has failed on a column. */
  ghost predicate Fails(phase: Phase, schema: Schema) {
    exists s, r :: (Reachable(s) && s.phase == phase && s.schema == schema
      && r in s.reqs && s.reqs[r] == Answered(Broken))
  }

  lemma Serves(s: Sys, r: nat, id: int)
    requires Reachable(s) && r !in s.reqs && id in s.rows && id in s.last && AllPresent(s.schema, ReadColumns(s.phase))
    ensures Served(Answer(s, id))
  {
    hide Reachable, Render, ReadColumns, AllPresent;
    var t := Shows(s, r, id);
  }

  lemma FailsOn(s: Sys, r: nat, id: int, cols: seq<Column>, name: string)
    requires Reachable(s) && r in s.reqs && s.reqs[r] == Inserting(name, cols) && id !in s.rows
    requires !AllPresent(s.schema, cols) || !CoversMandatory(s.schema, cols)
    ensures Fails(s.phase, s.schema)
  {
    hide Reachable, AllPresent, CoversMandatory, WriteName;
    Then(s, Commit(r, id));
    var t := DoCommit(s, r, id);
    assert t.reqs[r] == Answered(Broken) && t.phase == s.phase && t.schema == s.schema;
  }

  // ---- A legacy write caught in the switch ----

  const EXPANDED := Schema(true, false, true, false, false, true)

  /** A booking prepared in legacy on an empty table, and still on its way in read_new. */
  lemma LegacyBookingOnItsWay(name: string) returns (s: Sys)
    ensures Reachable(s)
    ensures s == Sys(EXPANDED, map[], 0, ReadNew, map[], map[1 := Inserting(name, [GuestName])], map[], map[], false)
  {
    var s0 := Sys(One("").schema, map[], 0, LegacyPhase, map[], map[], map[], map[], false);
    assert Reachable(s0) by { assert Init(s0) && Run(s0, []) && After(s0, []) == s0; }
    hide Reachable, StateOf, Accepts, GuestIsCurrent;
    Prepares(s0, 1, name);
    var s1 := Set(s0, 1, Inserting(name, [GuestName]));
    Then(s1, Upgrade0002);
    var s2 := s1.(schema := EXPANDED);
    NoRows(s2.rows);
    Switch(s2, 0, DualWrite);
    Switch(InPhase(s2, DualWrite), 0, ReadNew);
    s := InPhase(InPhase(s2, DualWrite), ReadNew);
  }

  lemma NoRows(rows: Table)
    requires rows == map[]
    ensures Accepts(DualWrite, StateOf(EXPANDED, rows)) && Accepts(ReadNew, StateOf(EXPANDED, rows))
  {
  }

  /** The guard found nothing left to backfill.  Once the booking commits, the new columns
      show no name at all. */
  lemma LegacyBookingLosesName(name: string)
    requires Names.Shown(SplitGuestName(name)) != ""
    ensures Misleads([FirstName, LastName], "", name)
  {
    var s := LegacyBookingOnItsWay(name);
    hide Reachable, SplitGuestName, Served;
    Books(s, 1, 1, [GuestName], name);
    var t := Booked(s, 1, 1, [GuestName], name);
    Serves(t, 2, 1);
    assert Answer(t, 1) == Shown(1, [FirstName, LastName], "", name, 0, true);
  }

  // ---- The filled table ----

  /** With these columns read_new is let in exactly when guest_name agrees. */
  lemma Opens(rows: Table, n: NameCols, version: nat)
    requires rows == map[1 := Row(n, version)] && n.guest.Some? && n.first.Some?
    ensures Accepts(LegacyPhase, StateOf(EXPANDED, rows)) && Accepts(LegacyPhase, StateOf(R3, rows))
    ensures Accepts(DualWrite, StateOf(EXPANDED, rows)) && Accepts(DualWrite, StateOf(R3, rows))
    ensures Accepts(ReadNew, StateOf(EXPANDED, rows)) <==> !NameMismatch(n)
    ensures Accepts(ReadNew, StateOf(R3, rows)) <==> !NameMismatch(n)
    ensures Accepts(NewOnly, StateOf(R3, rows)) <==> !NameMismatch(n)
  {
    hide NameMismatch;
    var id := 1;
    forall i ensures i !in Missing(rows) && i !in Awaiting(rows) {}
    assert Missing(rows) == {} && Awaiting(rows) == {};
    assert if NameMismatch(n) then id in Mismatched(rows) else Mismatched(rows) == {};
    NoneIsZero(Mismatched(rows));
    hide Missing, Awaiting, Mismatched;
  }

  lemma PreparedIs(name: string)
    ensures Prepared(One(name)) == One(name).(schema := EXPANDED, phase := DualWrite, clock := 2,
      rows := map[1 := Row(BothWritten(name), 1)])
    ensures Switched(One(name)) == Prepared(One(name)).(schema := R3, phase := NewOnly, retired := true)
    ensures Clean(name) <==> !NameMismatch(BothWritten(name))
  {
    FilledMismatch(name);
    hide SplitGuestName, BothWritten, Clean, NameMismatch;
    assert AllRows(One(name).last, 1, BothWritten) == map[1 := Row(BothWritten(name), 1)];
  }

  // ---- A query caught in the switch ----

  /** A query built while guest_name is read arrives after the switch to read_new: the response
      needs columns that were not loaded, and the client gets a 500. */
  lemma StraddlingReadFails(name: string)
    requires Clean(name)
    ensures Served(NotLoaded)
  {
    hide Reachable, StateOf, Accepts, GuestIsCurrent, Prepared, Switched, Clean, NameMismatch, SplitGuestName;
    Begins(name);
    PreparedIs(name);
    var s := Prepared(One(name));
    Opens(s.rows, BothWritten(name), 1);
    Loads(s, 1, Show, 1);
    var t := InPhase(Set(s, 1, Loaded(s, Show, 1)), ReadNew);
    Switch(Set(s, 1, Loaded(s, Show, 1)), 0, ReadNew);
    Then(t, Resume(1));
    assert DoResume(t, 1).reqs[1] == Answered(NotLoaded);
  }

  // ---- Leaving new_only for a phase that reads guest_name ----

  /** In new_only, before 0004: a renamed booking keeps its old guest_name. */
  lemma RenamedInNewOnly(a: string, b: string) returns (s: Sys)
    requires Clean(a) && SplitGuestName(a) != SplitGuestName(b)
    ensures Reachable(s) && s == RenamedTo(Switched(One(a)), 1, 1, b)
    ensures s == Switched(One(a)).(clock := 3, rows := map[1 := Row(BothWritten(b).(guest := Some(a)), 2)],
      last := map[1 := b], reqs := map[1 := Committed(1)])
  {
    hide Reachable, SplitGuestName, Clean, NameMismatch, Prepared, Switched, StateOf;
    Begins(a);
    PreparedIs(a);
    s := Switched(One(a));
    Changes(a, b);
    Renames(s, 1, 1, b);
    s := RenamedTo(s, 1, 1, b);
    assert WriteName(BothWritten(a), WriteColumns(NewOnly), b) == BothWritten(b).(guest := Some(a));
  }

  lemma Changes(a: string, b: string)
    requires SplitGuestName(a) != SplitGuestName(b)
    ensures NetChange(ReadColumns(NewOnly), BothWritten(a), WriteColumns(NewOnly), b)
  {
    hide SplitGuestName;
    var p, q := SplitGuestName(a), SplitGuestName(b);
    var c := if p.first != q.first then FirstName else LastName;
    assert p == Parts(p.first, p.last) && q == Parts(q.first, q.last);
    assert c in WriteColumns(NewOnly) && Cell(BothWritten(a), c) != Some(ValueFor(b, c));
  }

  /** The guard sees no missing name, lets dual_write back in, and the client is shown the
      name the booking had before. */
  lemma RenameIsLost(a: string, b: string)
    requires Clean(a) && SplitGuestName(a) != SplitGuestName(b)
    ensures Misleads([GuestName], a, b)
  {
    var s := RenamedInNewOnly(a, b);
    hide Reachable, SplitGuestName, Served, Clean, Prepared;
    FallsBack(s, BothWritten(b).(guest := Some(a)), b);
  }

  /** From new_only to dual_write. */
  lemma FallsBack(s: Sys, n: NameCols, name: string)
    requires Reachable(s) && s.schema == R3 && s.puts == map[] && s.reqs == map[1 := Committed(1)]
    requires s.rows == map[1 := Row(n, 2)] && s.last == map[1 := name] && n.guest.Some? && n.first.Some?
    ensures Served(Shown(1, [GuestName], n.guest.value, name, 2, true))
  {
    hide Reachable, NameMismatch, StateOf, Accepts, GuestIsCurrent, Served;
    Opens(s.rows, n, 2);
    Switch(s, 0, DualWrite);
    var t := InPhase(s, DualWrite);
    Serves(t, 2, 1);
    assert Answer(t, 1) == Shown(1, [GuestName], n.guest.value, name, 2, true);
  }

  /** A restart does the same, whatever phase the process is configured for: the old guest_name
      contradicts the new columns, so no phase that reads these is accepted. */
  lemma RestartShowsOldName(a: string, b: string, configured: Phase)
    requires Clean(a) && Clean(b) && Legacy(a) != Legacy(b)
    ensures exists s :: (Reachable(s) && 1 in s.rows && 1 in s.last
      && Answer(s, 1) == Shown(1, [FirstName, LastName], Names.Shown(SplitGuestName(b)), b, 2, true)
      && Answer(DoRestart(s, configured), 1) == Shown(1, [GuestName], a, b, 2, true))
  {
    MismatchLaw(a);
    MismatchLaw(b);
    hide Fits, PlainSpaces, Legacy, Rebuilt, SplitGuestName;
    var s := RenamedInNewOnly(a, b);
    var n := BothWritten(b).(guest := Some(a));
    assert NameMismatch(n) by { RebuiltParts(n, SplitGuestName(b)); }
    hide Reachable, RebuiltName, Clean, NameMismatch, Prepared, StateOf, Accepts, GuestIsCurrent;
    Opens(s.rows, n, 2);
    ReconciledIsBest(configured, StateOf(s.schema, s.rows));
    hide Reconciled;
  }

  // ---- A rename over columns that are cut ----

  lemma LosesBlank(p: Parts)
    requires SplitShape(p) && p.last != "" && p.last[|p.last| - 1] == ' '
    ensures |Rebuilt(p)| < |Names.Shown(p)|
  {
  }

  lemma CutTail(g: string)
    requires !Settled(g)
    ensures var h := Rebuilt(SplitGuestName(g));
      h != g && Legacy(h) == h && Names.Shown(SplitGuestName(g)) != Names.Shown(SplitGuestName(h))
  {
    hide Is, Cleaned, Fits, Rebuilt, NoSpace, OnlyBlanks, Tidy, Legacy;
    var p := SplitGuestName(g);
    SplitIsShaped(g);
    LosesBlank(p);
    hide SplitGuestName, Names.Shown;
    RebuiltRoundTrip(g);
    RebuiltOrShorter(g);
    ShownOrShorter(Rebuilt(p));
    CleanedIsTidy(g);
    CleanedIsTidy(Rebuilt(p));
  }

  /** A name was cut right behind a blank.  Renamed in legacy to what the database makes of its
      parts, it leaves columns that the guard finds in agreement and that show another name. */
  lemma {:induction false} UnsettledRenameMissed(g: string)
    requires !Settled(g)
    ensures Misleads([FirstName, LastName], Names.Shown(SplitGuestName(g)), Rebuilt(SplitGuestName(g)))
  {
    var h := Rebuilt(SplitGuestName(g));
    CutTail(g);
    hide SplitGuestName, Rebuilt, Legacy, Settled;
    var s := RenamedInLegacy(g, h);
    var n := BothWritten(g).(guest := Some(h));
    assert !NameMismatch(n) by { RebuiltAgrees(n, g); }
    hide Reachable, NameMismatch, Served;
    OpensAndShows(s, n, h);
    assert ShownName(n) == Names.Shown(SplitGuestName(g));
  }

  /** From legacy over dual_write to read_new, with guest_name in agreement. */
  lemma OpensAndShows(s: Sys, n: NameCols, name: string)
    requires Reachable(s) && s.schema == EXPANDED && s.puts == map[] && s.reqs == map[1 := Committed(1)]
    requires s.rows == map[1 := Row(n, 2)] && s.last == map[1 := name]
    requires n.guest.Some? && n.first.Some? && !NameMismatch(n)
    ensures Served(Shown(1, [FirstName, LastName], ShownName(n), name, 2, true))
  {
    hide Reachable, NameMismatch, StateOf, Accepts, GuestIsCurrent, Served, ShownName;
    Opens(s.rows, n, 2);
    Switch(s, 0, DualWrite);
    var t := InPhase(s, DualWrite);
    Switch(t, 0, ReadNew);
    t := InPhase(t, ReadNew);
    Serves(t, 2, 1);
    assert Answer(t, 1) == Shown(1, [FirstName, LastName], ShownName(n), name, 2, true);
  }

  lemma RebuiltAgrees(n: NameCols, g: string)
    requires n == BothWritten(g).(guest := Some(Rebuilt(SplitGuestName(g))))
    requires Legacy(n.guest.value) == n.guest.value
    ensures !NameMismatch(n)
  {
  }

  /** Backfilled, then renamed in legacy: the new columns stay behind. */
  lemma RenamedInLegacy(a: string, b: string) returns (s: Sys)
    requires a != b
    ensures Reachable(s) && s.schema == EXPANDED && s.phase == LegacyPhase && s.puts == map[]
    ensures s.rows == map[1 := Row(BothWritten(a).(guest := Some(b)), 2)] && s.last == map[1 := b]
    ensures s.reqs == map[1 := Committed(1)]
  {
    hide Reachable, SplitGuestName, NameMismatch, Prepared, Switched, StateOf, Accepts, GuestIsCurrent, Clean;
    Begins(a);
    PreparedIs(a);
    var p := Prepared(One(a));
    Opens(p.rows, BothWritten(a), 1);
    Switch(p, 0, LegacyPhase);
    s := InPhase(p, LegacyPhase);
    assert GuestName in WriteColumns(LegacyPhase) && Cell(BothWritten(a), GuestName) != Some(ValueFor(b, GuestName));
    Renames(s, 1, 1, b);
    s := RenamedTo(s, 1, 1, b);
    assert WriteName(BothWritten(a), WriteColumns(LegacyPhase), b) == BothWritten(a).(guest := Some(b));
  }

  // ---- PUTs that overlap ----

  /** One PUT is let into read_new; another goes back to legacy, where a booking is renamed;
      then the first one switches, and the old name is shown. */
  lemma LegacyWhileAllowed(a: string, b: string)
    requires Clean(a) && Names.Shown(SplitGuestName(a)) != Names.Shown(SplitGuestName(b))
    ensures Misleads([FirstName, LastName], Names.Shown(SplitGuestName(a)), b)
  {
    hide Reachable, SplitGuestName, NameMismatch, Prepared, Switched, StateOf, Accepts, GuestIsCurrent, Clean, Served;
    Begins(a);
    PreparedIs(a);
    var p := Prepared(One(a));
    Opens(p.rows, BothWritten(a), 1);
    Allow(p, 1, ReadNew);
    var s := p.(puts := p.puts[1 := Allowed(ReadNew)]);
    Switch(s, 0, LegacyPhase);
    s := InPhase(s, LegacyPhase);
    assert GuestName in WriteColumns(LegacyPhase) && Cell(BothWritten(a), GuestName) != Some(ValueFor(b, GuestName));
    Renames(s, 1, 1, b);
    s := RenamedTo(s, 1, 1, b);
    assert WriteName(BothWritten(a), WriteColumns(LegacyPhase), b) == BothWritten(a).(guest := Some(b));
    assert ShownName(BothWritten(a)) == Names.Shown(SplitGuestName(a));
    EntersReadNew(s, BothWritten(a).(guest := Some(b)), b);
  }

  lemma EntersReadNew(s: Sys, n: NameCols, name: string)
    requires Reachable(s) && s.schema == EXPANDED && s.puts == map[1 := Allowed(ReadNew)] && 2 !in s.reqs
    requires s.rows == map[1 := Row(n, 2)] && s.last == map[1 := name]
    ensures Served(Shown(1, [FirstName, LastName], ShownName(n), name, 2, true))
  {
    hide Reachable, GuestIsCurrent, Served, ShownName;
    Then(s, Enter(1));
    var t := DoEnter(s, 1);
    Serves(t, 2, 1);
    assert Answer(t, 1) == Shown(1, [FirstName, LastName], ShownName(n), name, 2, true);
  }

  /** One PUT is let into dual_write; another goes on to new_only, where a booking is made
      without a guest_name; then the first one switches, and the booking has no name. */
  lemma OverlappingPuts(a: string, b: string)
    requires Clean(a)
    ensures Served(NullName(true))
  {
    var s := AllowedBack(a);
    hide Reachable, SplitGuestName, Clean, Served;
    Prepares(s, 1, b);
    var q := Set(s, 1, Inserting(b, [FirstName, LastName]));
    Books(q, 1, 2, [FirstName, LastName], b);
    var u := Booked(q, 1, 2, [FirstName, LastName], b);
    assert u.rows[2].names.guest.None?;
    EntersAndShows(u);
  }

  lemma EntersAndShows(s: Sys)
    requires Reachable(s) && s.schema == R3 && s.puts == map[1 := Allowed(DualWrite)] && 2 !in s.reqs
    requires 2 in s.rows && 2 in s.last && s.rows[2].names.guest.None?
    ensures Served(NullName(true))
  {
    hide Reachable, GuestIsCurrent, Served;
    Then(s, Enter(1));
    Serves(DoEnter(s, 1), 2, 2);
  }

  /** In new_only, with a PUT that has been allowed dual_write before. */
  lemma AllowedBack(a: string) returns (s: Sys)
    requires Clean(a)
    ensures Reachable(s) && s.schema == R3 && s.phase == NewOnly && s.puts == map[1 := Allowed(DualWrite)]
    ensures s.rows.Keys == {1} && s.reqs == map[]
  {
    hide Reachable, SplitGuestName, NameMismatch, Prepared, Switched, StateOf, Accepts, GuestIsCurrent, Clean;
    PreparedIs(a);
    var p := Relaxed(a);
    Opens(p.rows, BothWritten(a), 1);
    Allow(p, 1, DualWrite);
    s := p.(puts := p.puts[1 := Allowed(DualWrite)]);
    Switch(s, 0, NewOnly);
    s := InPhase(s, NewOnly);
  }

  /** Prepared, and revision 0003 has run. */
  lemma Relaxed(a: string) returns (s: Sys)
    ensures Reachable(s) && s == Prepared(One(a)).(schema := R3)
    ensures s == One(a).(schema := R3, phase := DualWrite, clock := 2, rows := map[1 := Row(BothWritten(a), 1)])
  {
    hide Reachable, SplitGuestName, Prepared, Switched, Clean, NameMismatch;
    Begins(a);
    PreparedIs(a);
    Then(Prepared(One(a)), Upgrade0003);
    s := Prepared(One(a)).(schema := R3);
  }

  // ---- Revisions at the wrong moment ----

  /** SET NOT NULL on first_name in legacy stops the next booking; and outside it, one that
      was prepared in legacy. */
  lemma MandatoryTooEarly(a: string, b: string)
    ensures Fails(LegacyPhase, HALF)
    ensures Fails(DualWrite, HALF)
  {
    hide Reachable, SplitGuestName, NameMismatch, StateOf, Accepts, GuestIsCurrent, Clean, Fails;
    var p := Relaxed(a);
    Opens(p.rows, BothWritten(a), 1);
    Switch(p, 0, LegacyPhase);
    var s := InPhase(p, LegacyPhase);
    Then(s, FirstNotNull);
    var t := s.(schema := R3.(firstNotNull := true));
    Prepares(t, 1, b);
    FailsOn(Set(t, 1, Inserting(b, [GuestName])), 1, 2, [GuestName], b);
    Prepares(s, 1, b);
    s := Set(s, 1, Inserting(b, [GuestName]));
    Switch(s, 0, DualWrite);
    s := InPhase(s, DualWrite);
    Then(s, FirstNotNull);
    FailsOn(s.(schema := R3.(firstNotNull := true)), 1, 2, [GuestName], b);
  }

  /** 0004 half done: first_name is mandatory already, last_name not yet. */
  const HALF := R3.(firstNotNull := true)

  /** A booking made now, with nothing in between, fails. */
  predicate BookingFails(s: Sys, r: nat, id: int, name: string) {
    && Run(s, [Book(r, name), Commit(r, id)])
    && r in After(s, [Book(r, name), Commit(r, id)]).reqs
    && After(s, [Book(r, name), Commit(r, id)]).reqs[r] == Answered(Broken)
  }

  lemma LegacyBookingFails(s: Sys, r: nat, id: int, name: string)
    requires s.phase == LegacyPhase && s.schema == HALF && r !in s.reqs && id !in s.rows
    ensures BookingFails(s, r, id, name)
  {
    hide WriteName, SplitGuestName;
    var t := Set(s, r, Inserting(name, [GuestName]));
    assert Enabled(s, Book(r, name)) && Apply(s, Book(r, name)) == t;
    assert Enabled(t, Commit(r, id)) && Apply(t, Commit(r, id)).reqs[r] == Answered(Broken);
    hide Enabled, Apply;
    TwoSteps(s, Book(r, name), Commit(r, id));
  }

  lemma TwoSteps(s: Sys, a: Step, b: Step)
    requires Enabled(s, a) && Enabled(Apply(s, a), b)
    ensures Run(s, [a, b]) && After(s, [a, b]) == Apply(Apply(s, a), b)
  {
    hide Enabled, Apply;
    assert [a, b][1..] == [b] && [b][1..] == [];
    var t := Apply(s, a);
    assert Run(t, [b]) && After(t, [b]) == Apply(t, b);
  }

  /** The guard does not look at first_name being mandatory.  With 0004 half done in dual_write
      it lets legacy in, and a restart configured for legacy stays there; after the one as
      after the other, bookings fail. */
  lemma HalfwayToLegacy(a: string, b: string)
    ensures exists s :: (Reachable(s) && s.phase == DualWrite && s.schema == HALF
      && Reachable(InPhase(s, LegacyPhase)) && BookingFails(InPhase(s, LegacyPhase), 1, 2, b)
      && BookingFails(DoRestart(s, LegacyPhase), 1, 2, b))
  {
    hide Reachable, SplitGuestName, NameMismatch, StateOf, Accepts, GuestIsCurrent, Clean, BookingFails;
    var p := Relaxed(a);
    assert p.schema == R3 && p.rows == map[1 := Row(BothWritten(a), 1)];
    Then(p, FirstNotNull);
    var s := p.(schema := HALF);
    HalfAccepts(s.rows, BothWritten(a));
    Switch(s, 0, LegacyPhase);
    LegacyBookingFails(InPhase(s, LegacyPhase), 1, 2, b);
    LegacyBookingFails(DoRestart(s, LegacyPhase), 1, 2, b);
  }

  lemma HalfAccepts(rows: Table, n: NameCols)
    requires rows == map[1 := Row(n, 1)] && n.guest.Some? && n.first.Some?
    ensures Accepts(LegacyPhase, StateOf(HALF, rows)) && Reconciled(LegacyPhase, StateOf(HALF, rows)) == LegacyPhase
  {
    Opens(rows, n, 1);
    hide NameMismatch, Awaiting, Missing, Mismatched;
  }

  lemma Contracts(s: Sys, name: string)
    requires Reachable(s) && s.schema == R3 && s.rows == map[1 := Row(BothWritten(name), 1)]
    requires s.batch == map[] && s.puts == map[]
    ensures Reachable(s.(schema := R4, rows := map[1 := Row(NewWritten(name), 1)]))
  {
    hide Reachable, SplitGuestName, Enabled, Apply;
    MandatoryGoes(s, name);
    Then(s, FirstNotNull);
    var s1 := s.(schema := R3.(firstNotNull := true));
    Then(s1, LastNotNull);
    var s2 := s1.(schema := R3.(firstNotNull := true, lastNotNull := true));
    DropGoes(s2, name);
    Then(s2, DropGuestName);
  }

  lemma MandatoryGoes(s: Sys, name: string)
    requires s.schema == R3 && s.rows == map[1 := Row(BothWritten(name), 1)]
    ensures var t := s.(schema := R3.(firstNotNull := true));
      && Enabled(s, FirstNotNull) && Apply(s, FirstNotNull) == t
      && Enabled(t, LastNotNull)
      && Apply(t, LastNotNull) == s.(schema := R3.(firstNotNull := true, lastNotNull := true))
  {
    hide SplitGuestName;
  }

  lemma DropGoes(s: Sys, name: string)
    requires s.schema == R3.(firstNotNull := true, lastNotNull := true) && s.rows == map[1 := Row(BothWritten(name), 1)]
    requires s.batch == map[] && s.puts == map[]
    ensures Enabled(s, DropGuestName)
    ensures Apply(s, DropGuestName) == s.(schema := R4, rows := map[1 := Row(NewWritten(name), 1)])
  {
    hide SplitGuestName;
    assert DoDropGuest(s).rows == map[1 := Row(NewWritten(name), 1)];
  }

  /** 0004 does not look at the phase.  Run in read_new it goes through, and the next booking
      names a column that is gone; run in new_only, so does a booking prepared before. */
  lemma ContractTooEarly(a: string, b: string)
    requires Clean(a)
    ensures Fails(ReadNew, R4) && Fails(NewOnly, R4)
  {
    hide Reachable, SplitGuestName, NameMismatch, StateOf, Accepts, GuestIsCurrent, Clean, Fails, NewWritten;
    var cols := WriteColumns(ReadNew);
    PreparedIs(a);
    var p := Relaxed(a);
    Opens(p.rows, BothWritten(a), 1);
    Switch(p, 0, ReadNew);
    var s := InPhase(p, ReadNew);
    Contracts(s, a);
    var t := s.(schema := R4, rows := map[1 := Row(NewWritten(a), 1)]);
    Prepares(t, 1, b);
    FailsOn(Set(t, 1, Inserting(b, cols)), 1, 2, cols, b);
    Prepares(s, 1, b);
    s := Set(s, 1, Inserting(b, cols));
    Switch(s, 0, NewOnly);
    s := InPhase(s, NewOnly);
    Contracts(s, a);
    FailsOn(s.(schema := R4, rows := map[1 := Row(NewWritten(a), 1)]), 1, 2, cols, b);
  }

  lemma Unrelaxes(s: Sys)
    requires Reachable(s) && s.schema == R3 && s.rows.Keys == {1} && s.rows[1].names.guest.Some?
    requires s.batch == map[] && s.puts == map[]
    ensures Reachable(s.(schema := EXPANDED, clock := s.clock + 1))
  {
    hide Reachable, RebuiltName;
    forall id ensures id !in Missing(s.rows) {}
    assert Missing(s.rows) == {};
    NothingFilled(s.rows, s.clock);
    Then(s, Downgrade0003);
    assert DoDowngrade0003(s) == s.(schema := EXPANDED, clock := s.clock + 1);
  }

  /** 0003 undone in new_only stops the next booking; and outside it, one prepared there. */
  lemma UnrelaxTooEarly(a: string, b: string)
    requires Clean(a)
    ensures Fails(NewOnly, EXPANDED) && Fails(ReadNew, EXPANDED)
  {
    hide Reachable, SplitGuestName, NameMismatch, StateOf, Accepts, GuestIsCurrent, Clean, Fails, Prepared;
    var cols := WriteColumns(NewOnly);
    Begins(a);
    PreparedIs(a);
    var s := Switched(One(a));
    Opens(s.rows, BothWritten(a), 1);
    Unrelaxes(s);
    var t := s.(schema := EXPANDED, clock := s.clock + 1);
    Prepares(t, 1, b);
    FailsOn(Set(t, 1, Inserting(b, cols)), 1, 2, cols, b);
    Prepares(s, 1, b);
    s := Set(s, 1, Inserting(b, cols));
    Switch(s, 0, ReadNew);
    s := InPhase(s, ReadNew);
    Unrelaxes(s);
    FailsOn(s.(schema := EXPANDED, clock := s.clock + 1), 1, 2, cols, b);
  }

  lemma Unexpands(s: Sys)
    requires Reachable(s) && s.schema == EXPANDED && s.rows.Keys == {1} && s.batch == map[] && s.puts == map[]
    ensures Reachable(s.(schema := One("").schema, rows := map[1 := DropNewColumns(s.rows[1])]))
  {
    hide Reachable;
    Then(s, Downgrade0002);
    assert DoDowngrade0002(s).rows == map[1 := DropNewColumns(s.rows[1])];
  }

  /** 0002 undone in dual_write stops the next booking; and in legacy, one prepared before. */
  lemma UnexpandTooEarly(a: string, b: string)
    ensures Fails(DualWrite, One(a).schema) && Fails(LegacyPhase, One(a).schema)
  {
    hide Reachable, SplitGuestName, NameMismatch, StateOf, Accepts, GuestIsCurrent, Clean, Fails, Prepared;
    var cols := WriteColumns(DualWrite);
    Begins(a);
    PreparedIs(a);
    var s := Prepared(One(a));
    Opens(s.rows, BothWritten(a), 1);
    Unexpands(s);
    var t := s.(schema := One("").schema, rows := map[1 := DropNewColumns(s.rows[1])]);
    Prepares(t, 1, b);
    FailsOn(Set(t, 1, Inserting(b, cols)), 1, 2, cols, b);
    Prepares(s, 1, b);
    s := Set(s, 1, Inserting(b, cols));
    Switch(s, 0, LegacyPhase);
    s := InPhase(s, LegacyPhase);
    Unexpands(s);
    FailsOn(s.(schema := One("").schema, rows := map[1 := DropNewColumns(s.rows[1])]), 1, 2, cols, b);
  }
}
