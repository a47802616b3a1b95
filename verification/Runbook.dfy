/** The runbook from revision 0001 to 0004 and all the way back, on a table of any names. */
module Runbook {
  import opened Names
  import opened NameLaws
  import opened Store
  import opened Migration
  import opened Protocol
  import opened Phases
  import opened Fidelity
  import opened Guard
  import Alembic

  /** One phase change. */
  function Change(target: Phase): seq<Step> {
    [Count(0, target), Check(0), Enter(0)]
  }

  /** Expand, dual_write, one backfill of every row. */
  function Prepare(s: Sys): seq<Step> {
    [Upgrade0002] + Change(DualWrite) + [Lock(s.rows.Keys), Fill]
  }

  /** read_new, revision 0003, new_only. */
  const SWITCH: seq<Step> := Change(ReadNew) + [Upgrade0003] + Change(NewOnly)

  /** Revision 0004. */
  const CONTRACT: seq<Step> := [FirstNotNull, LastNotNull, DropGuestName]

  /** The rollback table, from its last line to its first. */
  const BACK: seq<Step> :=
    [Downgrade0004] + Change(ReadNew) + [Downgrade0003] + Change(DualWrite) + Change(LegacyPhase) + [Downgrade0002]

  function Steps(s: Sys): seq<Step> {
    Prepare(s) + (SWITCH + CONTRACT)
  }

  // ---- Runs put together ----

  /** A run from one state to another; a disciplined one if asked for. */
  predicate Goes(s: Sys, steps: seq<Step>, t: Sys, disciplined: bool) {
    Run(s, steps) && After(s, steps) == t && (disciplined ==> DisciplinedRun(s, steps))
  }

  lemma {:induction false} GoesOn(s: Sys, a: seq<Step>, t: Sys, b: seq<Step>, u: Sys, d: bool)
    requires Goes(s, a, t, d) && Goes(t, b, u, d)
    ensures Goes(s, a + b, u, d)
    decreases |a|
  {
    hide Enabled, Apply, Disciplined;
    if a == [] {
      assert a + b == b;
    } else {
      assert (a + b)[1..] == a[1..] + b;
      GoesOn(Apply(s, a[0]), a[1..], t, b, u, d);
    }
  }

  lemma GoesOne(s: Sys, step: Step, d: bool)
    requires Enabled(s, step) && (d ==> Disciplined(s, step))
    ensures Goes(s, [step], Apply(s, step), d)
  {
  }

  /** The states between the three turns of a PUT. */
  function Counted(s: Sys, k: nat, target: Phase): Sys {
    s.(puts := s.puts[k := Counting(target, StateOf(s.schema, s.rows).awaiting)])
  }

  function Decided(s: Sys, k: nat, target: Phase): Sys {
    if Accepts(target, StateOf(s.schema, s.rows)) then s.(puts := s.puts[k := Allowed(target)]) else s
  }

  lemma Counts(s: Sys, k: nat, target: Phase)
    requires k !in s.puts
    ensures Enabled(s, Count(k, target)) && Apply(s, Count(k, target)) == Counted(s, k, target)
  {
  }

  lemma Decides(s: Sys, k: nat, target: Phase)
    requires k !in s.puts
    ensures Enabled(Counted(s, k, target), Check(k)) && Apply(Counted(s, k, target), Check(k)) == Decided(s, k, target)
  {
    hide StateOf, Accepts;
    var c := Counted(s, k, target);
    assert SeenBy(c, c.puts[k]) == StateOf(s.schema, s.rows);
    assert c.puts - {k} == s.puts && c.puts[k := Allowed(target)] == s.puts[k := Allowed(target)];
    hide SeenBy;
  }

  lemma Enters(s: Sys, k: nat, target: Phase)
    requires k !in s.puts
    ensures Enabled(Decided(s, k, target), Enter(k)) <==> Accepts(target, StateOf(s.schema, s.rows))
    ensures Accepts(target, StateOf(s.schema, s.rows)) ==>
      Apply(Decided(s, k, target), Enter(k)) == InPhase(s, target)
  {
    hide StateOf, Accepts;
    var d := Decided(s, k, target);
    assert k in d.puts ==> d.puts - {k} == s.puts;
    assert k in d.puts ==> d.(puts := d.puts - {k}) == s;
    hide GuestIsCurrent;
  }

  /** A phase change with nothing on its way goes through exactly when the guard accepts. */
  lemma Changes(s: Sys, target: Phase, d: bool)
    requires s.puts == map[] && s.reqs == map[]
    ensures Run(s, Change(target)) <==> Accepts(target, StateOf(s.schema, s.rows))
    ensures Accepts(target, StateOf(s.schema, s.rows)) && MayChange(s, target, d) ==>
      Goes(s, Change(target), InPhase(s, target), d)
  {
    hide StateOf, Accepts, Settles, Run, After, DisciplinedRun, Goes, MayChange, InPhase, Apply, Enabled, Counted,
      Decided;
    Counts(s, 0, target);
    Decides(s, 0, target);
    Enters(s, 0, target);
    ThreeSteps(s, Count(0, target), Check(0), Enter(0));
    if Accepts(target, StateOf(s.schema, s.rows)) && MayChange(s, target, d) { ChangeGoes(s, target, d); }
  }

  lemma ChangeGoes(s: Sys, target: Phase, d: bool)
    requires s.puts == map[] && s.reqs == map[] && MayChange(s, target, d) && Accepts(target, StateOf(s.schema, s.rows))
    ensures Goes(s, Change(target), InPhase(s, target), d)
  {
    hide StateOf, Accepts, Goes, Apply, Enabled, InPhase, Counted, Decided;
    var s1, s2 := Counted(s, 0, target), Decided(s, 0, target);
    Counts(s, 0, target);
    Decides(s, 0, target);
    Enters(s, 0, target);
    if d { ChangeIsDisciplined(s, target); }
    hide Disciplined;
    GoesOne(s, Count(0, target), d);
    GoesOne(s1, Check(0), d);
    GoesOne(s2, Enter(0), d);
    GoesOn(s, [Count(0, target)], s1, [Check(0)], s2, d);
    GoesOn(s, [Count(0, target)] + [Check(0)], s2, [Enter(0)], InPhase(s, target), d);
    assert [Count(0, target)] + [Check(0)] + [Enter(0)] == Change(target);
  }

  lemma ChangeIsDisciplined(s: Sys, target: Phase)
    requires s.puts == map[] && s.reqs == map[] && MayChange(s, target, true)
    ensures Disciplined(s, Count(0, target)) && Disciplined(Counted(s, 0, target), Check(0))
    ensures Disciplined(Decided(s, 0, target), Enter(0))
  {
    hide StateOf, Accepts, Settles, DoEnter;
    EnterIsDisciplined(s, target);
  }

  lemma EnterIsDisciplined(s: Sys, target: Phase)
    requires s.puts == map[] && MayChange(s, target, true)
    ensures var d := Decided(s, 0, target); 0 in d.puts && d.puts[0].Allowed? ==> Settles(DoEnter(d, 0))
  {
  }

  predicate MayChange(s: Sys, target: Phase, d: bool) {
    d ==>
      && (ReadsNew(target) ==> WritesNew(s.phase)) && Settles(InPhase(s, target))
      && !s.schema.firstNotNull && !s.schema.lastNotNull
  }

  lemma ThreeSteps(s: Sys, a: Step, b: Step, c: Step)
    ensures Run(s, [a, b, c]) <==>
      Enabled(s, a) && Enabled(Apply(s, a), b) && Enabled(Apply(Apply(s, a), b), c)
  {
    hide Enabled, Apply;
    RunInTwo(s, [a], [b, c]);
    if Enabled(s, a) {
      assert [a][1..] == [];
      RunInTwo(Apply(s, a), [b], [c]);
      assert [b][1..] == [] && [c][1..] == [];
    }
    assert [a] + [b, c] == [a, b, c] && [b] + [c] == [b, c];
  }

  // ---- The states on the way ----

  function BothWritten(name: string): NameCols {
    NameCols(Some(name), Some(SplitGuestName(name).first), Some(SplitGuestName(name).last))
  }

  /** Every row with these names and this version. */
  function AllRows(last: map<int, string>, version: nat, names: string -> NameCols): Table {
    map id | id in last :: Row(names(last[id]), version)
  }

  const R2 := Schema(true, false, true, false, false, true)
  const R3 := Schema(true, true, true, false, false, true)

  function Dual(s: Sys): Sys {
    s.(schema := R2, phase := DualWrite)
  }

  /** The state before read_new is asked for. */
  function Prepared(s: Sys): Sys {
    Dual(s).(rows := AllRows(s.last, s.clock, BothWritten), clock := s.clock + 1)
  }

  /** The state before 0004. */
  function Switched(s: Sys): Sys {
    Prepared(s).(schema := R3, phase := NewOnly, retired := true)
  }

  lemma PrepareGoes(s: Sys)
    requires Init(s)
    ensures Goes(s, Prepare(s), Prepared(s), true)
  {
    hide SplitGuestName, Goes, AllRows, Change, StateOf, Accepts, Init;
    var s1, s2 := s.(schema := R2), Dual(s);
    var s3 := s2.(batch := map id | id in s.last :: SplitGuestName(s.last[id]));
    UpgradeGoes(s, s1);
    DualChanges(s, s1, s2);
    LockAll(s, s2);
    FillAll(s, s3);
    GoesOne(s2, Lock(s.rows.Keys), true);
    GoesOne(s3, Fill, true);
    hide Enabled, Apply, Disciplined;
    GoesOn(s, [Upgrade0002], s1, Change(DualWrite), s2, true);
    GoesOn(s, [Upgrade0002] + Change(DualWrite), s2, [Lock(s.rows.Keys)], s3, true);
    GoesOn(s, [Upgrade0002] + Change(DualWrite) + [Lock(s.rows.Keys)], s3, [Fill], Prepared(s), true);
    assert [Upgrade0002] + Change(DualWrite) + [Lock(s.rows.Keys)] + [Fill] == Prepare(s);
  }

  lemma UpgradeGoes(s: Sys, t: Sys)
    requires Init(s) && t == s.(schema := R2)
    ensures Goes(s, [Upgrade0002], t, true)
  {
    hide Goes;
    GoesOne(s, Upgrade0002, true);
  }

  lemma DualChanges(s: Sys, s1: Sys, s2: Sys)
    requires Init(s) && s1 == s.(schema := R2) && s2 == Dual(s)
    ensures Goes(s1, Change(DualWrite), s2, true)
  {
    hide Goes, Change, StateOf, Accepts;
    DualIsAccepted(s1);
    assert InPhase(s1, DualWrite) == s2;
    assert MayChange(s1, DualWrite, true);
    hide Init, InPhase, MayChange;
    Changes(s1, DualWrite, true);
  }

  lemma DualIsAccepted(s: Sys)
    requires s.schema == R2 && AllHaveGuest(s)
    ensures Accepts(DualWrite, StateOf(s.schema, s.rows)) && Accepts(LegacyPhase, StateOf(s.schema, s.rows))
  {
    hide Awaiting, Mismatched, Missing, AllHaveGuest;
    NobodyMissing(s);
  }

  lemma LockAll(s: Sys, t: Sys)
    requires Init(s) && t == Dual(s)
    ensures var u := t.(batch := map id | id in s.last :: SplitGuestName(s.last[id]));
      Enabled(t, Lock(s.rows.Keys)) && Apply(t, Lock(s.rows.Keys)) == u
  {
    hide SplitGuestName;
    forall id | id in s.rows
      ensures t.rows[id].names.first.None? && OrEmpty(t.rows[id].names.guest) == s.last[id]
    {
      assert s.rows[id].names == NameCols(Some(s.last[id]), None, None);
    }
    assert Lockable(t, s.rows.Keys);
    assert DoLock(t, s.rows.Keys).batch == map id | id in s.last :: SplitGuestName(s.last[id]);
  }

  lemma FillAll(s: Sys, t: Sys)
    requires Init(s) && t == Dual(s).(batch := map id | id in s.last :: SplitGuestName(s.last[id]))
    ensures Enabled(t, Fill) && Apply(t, Fill) == Prepared(s)
  {
    hide SplitGuestName, FillRow, BothWritten;
    forall id | id in s.rows
      ensures id in t.batch && FillRow(s.rows[id], t.batch[id], s.clock) == Row(BothWritten(s.last[id]), s.clock)
    {
      FillOne(s.rows[id], s.last[id], s.clock);
    }
    assert DoFill(t).rows == AllRows(s.last, s.clock, BothWritten);
  }

  lemma FillOne(r: Row, name: string, version: nat)
    requires r.names == NameCols(Some(name), None, None)
    ensures FillRow(r, SplitGuestName(name), version) == Row(BothWritten(name), version)
  {
    hide SplitGuestName;
  }

  // ---- Up ----

  lemma FilledMismatch(name: string)
    ensures NameMismatch(BothWritten(name)) <==> !Clean(name)
  {
    MismatchLaw(name);
    hide SplitGuestName, Rebuilt, Legacy, RebuiltName, Fits, PlainSpaces;
    assert Filled(BothWritten(name), SplitGuestName(name));
    RebuiltParts(BothWritten(name), SplitGuestName(name));
  }

  predicate AllClean(last: map<int, string>) {
    forall id :: id in last ==> Clean(last[id])
  }

  lemma FilledCounts(last: map<int, string>, version: nat)
    ensures var rows := AllRows(last, version, BothWritten);
      && Awaiting(rows) == {} && Missing(rows) == {} && (Mismatched(rows) == {} <==> AllClean(last))
  {
    hide SplitGuestName, NameMismatch, Clean;
    var rows := AllRows(last, version, BothWritten);
    forall id ensures id !in Awaiting(rows) && id !in Missing(rows) {}
    forall id | id in last ensures id in Mismatched(rows) <==> !Clean(last[id]) { FilledMismatch(last[id]); }
    if AllClean(last) { forall id ensures id !in Mismatched(rows) {} }
  }

  /** read_new is let in exactly when every name is clean, and then new_only is too. */
  lemma SwitchGoes(s: Sys)
    requires Init(s)
    ensures Run(Prepared(s), SWITCH) ==> AllClean(s.last)
    ensures AllClean(s.last) ==> Goes(Prepared(s), SWITCH, Switched(s), true)
  {
    hide SplitGuestName, Goes, Run, Change, AllRows, Clean, AllClean, StateOf, Accepts;
    var p := Prepared(s);
    FilledCounts(s.last, s.clock);
    FittingIsAccepted(ReadNew, R2, p.rows) by { R2AndR3Fit(); }
    FittingIsAccepted(NewOnly, R3, p.rows) by { R2AndR3Fit(); }
    hide Awaiting, Missing, Mismatched, PhaseFits;
    Changes(p, ReadNew, true);
    RunInTwo(p, Change(ReadNew), [Upgrade0003] + Change(NewOnly));
    assert SWITCH == Change(ReadNew) + ([Upgrade0003] + Change(NewOnly));
    if AllClean(s.last) {
      var p1 := p.(phase := ReadNew);
      var p2 := p1.(schema := R3);
      assert InPhase(p, ReadNew) == p1 && InPhase(p2, NewOnly) == Switched(s);
      assert MayChange(p, ReadNew, true) && MayChange(p2, NewOnly, true);
      GoesOne(p1, Upgrade0003, true);
      Changes(p2, NewOnly, true);
      hide Enabled, Apply, Disciplined, InPhase, MayChange, Init;
      GoesOn(p, Change(ReadNew), p1, [Upgrade0003], p2, true);
      GoesOn(p, Change(ReadNew) + [Upgrade0003], p2, Change(NewOnly), Switched(s), true);
    }
  }

  lemma R2AndR3Fit()
    ensures PhaseFits(ReadNew, R2) && PhaseFits(NewOnly, R3) && PhaseFits(ReadNew, R3)
    ensures PhaseFits(DualWrite, R2) && PhaseFits(LegacyPhase, R2)
  {
  }

  function NewWritten(name: string): NameCols {
    BothWritten(name).(guest := None)
  }

  const R4 := Schema(false, false, true, true, true, false)

  /** The state after 0004. */
  function Contracted(s: Sys): Sys {
    Switched(s).(schema := R4, rows := AllRows(s.last, s.clock, NewWritten))
  }

  lemma ContractGoes(s: Sys)
    requires Init(s)
    ensures Goes(Switched(s), CONTRACT, Contracted(s), true)
  {
    hide Goes, Init, Switched, Contracted, Enabled, Apply, Disciplined;
    var t1 := Switched(s).(schema := R3.(firstNotNull := true));
    var t2 := t1.(schema := R3.(firstNotNull := true, lastNotNull := true));
    ContractSteps(s, t1, t2);
    GoesOne(Switched(s), FirstNotNull, true);
    GoesOne(t1, LastNotNull, true);
    GoesOne(t2, DropGuestName, true);
    GoesOn(Switched(s), [FirstNotNull], t1, [LastNotNull], t2, true);
    GoesOn(Switched(s), [FirstNotNull] + [LastNotNull], t2, [DropGuestName], Contracted(s), true);
    assert [FirstNotNull] + [LastNotNull] + [DropGuestName] == CONTRACT;
  }

  lemma ContractSteps(s: Sys, t1: Sys, t2: Sys)
    requires Init(s) && t1 == Switched(s).(schema := R3.(firstNotNull := true))
    requires t2 == t1.(schema := R3.(firstNotNull := true, lastNotNull := true))
    ensures Enabled(Switched(s), FirstNotNull) && Apply(Switched(s), FirstNotNull) == t1
    ensures Enabled(t1, LastNotNull) && Apply(t1, LastNotNull) == t2
    ensures Enabled(t2, DropGuestName) && Apply(t2, DropGuestName) == Contracted(s)
    ensures Disciplined(Switched(s), FirstNotNull) && Disciplined(t1, LastNotNull) && Disciplined(t2, DropGuestName)
  {
    hide AllRows, NoRowLacks, BothWritten, NewWritten;
    NoneLacking(Switched(s), s);
    NoneLacking(t1, s);
    Dropped(s);
  }

  lemma NoneLacking(t: Sys, s: Sys)
    requires t.rows == AllRows(s.last, s.clock, BothWritten)
    ensures NoRowLacks(t, FirstName) && NoRowLacks(t, LastName)
  {
  }

  lemma Dropped(s: Sys)
    ensures AllRows(s.last, s.clock, BothWritten).Keys == s.last.Keys
    ensures (map id | id in s.last :: DropGuest(AllRows(s.last, s.clock, BothWritten)[id]))
      == AllRows(s.last, s.clock, NewWritten)
  {
    hide SplitGuestName;
    forall id | id in s.last
      ensures DropGuest(AllRows(s.last, s.clock, BothWritten)[id]) == AllRows(s.last, s.clock, NewWritten)[id]
    {
      assert DropGuest(Row(BothWritten(s.last[id]), s.clock)) == Row(NewWritten(s.last[id]), s.clock);
    }
  }

  /** The whole runbook, from any table at revision 0001: it goes through exactly when every
      name is clean, that is, when no part is longer than its column and its spaces are ones
      the database knows too; one name that is not stops it at read_new.  It is then a run of
      the kind the fidelity theorem asks for, and it ends at revision 0004 in new_only with
      each row holding the split of its name and nothing else. */
  lemma RunbookGoesThrough(s: Sys)
    requires Init(s)
    ensures Run(s, Steps(s)) <==> AllClean(s.last)
    ensures AllClean(s.last) ==> Goes(s, Steps(s), Contracted(s), true)
  {
    hide AllClean, Run, Contracted, Switched, Prepared, Goes, Change, Init;
    PrepareGoes(s);
    assert Run(s, Prepare(s)) && After(s, Prepare(s)) == Prepared(s) by { Ran(s, Prepare(s), Prepared(s), true); }
    RunInTwo(s, Prepare(s), SWITCH + CONTRACT);
    RunInTwo(Prepared(s), SWITCH, CONTRACT);
    SwitchGoes(s);
    if AllClean(s.last) {
      ContractGoes(s);
      GoesOn(Prepared(s), SWITCH, Switched(s), CONTRACT, Contracted(s), true);
      GoesOn(s, Prepare(s), Prepared(s), SWITCH + CONTRACT, Contracted(s), true);
      Ran(s, Steps(s), Contracted(s), true);
    }
  }

  lemma Ran(s: Sys, steps: seq<Step>, t: Sys, d: bool)
    requires Goes(s, steps, t, d)
    ensures Run(s, steps) && After(s, steps) == t && (d ==> DisciplinedRun(s, steps))
  {
  }

  // ---- And back ----

  function RebuiltOf(name: string): string {
    Rebuilt(SplitGuestName(name))
  }

  function BothRebuilt(name: string): NameCols {
    BothWritten(name).(guest := Some(RebuiltOf(name)))
  }

  function OnlyRebuilt(name: string): NameCols {
    NameCols(Some(RebuiltOf(name)), None, None)
  }

  /** The state once 0004 is undone. */
  function Undone(s: Sys): Sys {
    Contracted(s).(schema := R3, rows := AllRows(s.last, s.clock + 1, BothRebuilt), clock := s.clock + 2)
  }

  /** The same, in read_new, and with 0003 undone as well. */
  function Reading(s: Sys): Sys {
    Undone(s).(phase := ReadNew, retired := !AllTidy(s.last))
  }

  function Unrelaxed(s: Sys, phase: Phase): Sys {
    Reading(s).(schema := R2, phase := phase, clock := s.clock + 3)
  }

  /** Back at revision 0001. */
  function Returned(s: Sys): Sys {
    Unrelaxed(s, LegacyPhase).(
      schema := Schema(true, false, false, false, false, false), rows := AllRows(s.last, s.clock + 1, OnlyRebuilt))
  }

  predicate AllTidy(last: map<int, string>) {
    forall id :: id in last ==> Tidy(last[id]) && Fits(last[id])
  }

  predicate AllShort(last: map<int, string>) {
    forall id :: id in last ==> |last[id]| <= NAME_LIMIT
  }

  lemma RebuiltIsRight(name: string, version: nat)
    ensures WithRebuilt(Row(NewWritten(name), version), version + 1) == Row(BothRebuilt(name), version + 1)
    ensures !NameMismatch(BothRebuilt(name)) && |RebuiltOf(name)| <= |name|
    ensures RebuiltOf(name) == name <==> Tidy(name) && Fits(name)
    ensures RebuiltName(NewWritten(name)) == RebuiltOf(name)
  {
    hide SplitGuestName, Rebuilt, RebuiltName, NameMismatch, Tidy, Fits;
    assert Filled(NewWritten(name), SplitGuestName(name));
    RebuiltParts(NewWritten(name), SplitGuestName(name));
    Alembic.RebuiltOfFilled(NewWritten(name), name);
  }

  lemma StartsQuiet(s: Sys)
    requires Init(s)
    ensures s.puts == map[] && s.reqs == map[] && s.batch == map[] && s.rows.Keys == s.last.Keys
  {
  }

  lemma UndoGoes(s: Sys, d: bool)
    requires AllShort(s.last) && Init(s)
    ensures Goes(Contracted(s), [Downgrade0004], Undone(s), d)
  {
    hide Goes, AllRows, Init, AllShort, TooLong;
    var c := Contracted(s);
    StartsQuiet(s);
    UndoneRows(s);
    assert Enabled(c, Downgrade0004) && Apply(c, Downgrade0004) == Undone(s);
    GoesOne(c, Downgrade0004, d);
  }

  lemma UndoneRows(s: Sys)
    requires AllShort(s.last)
    ensures var rows := AllRows(s.last, s.clock, NewWritten);
      !TooLong(rows, rows.Keys) && RebuildAll(rows, s.clock + 1) == AllRows(s.last, s.clock + 1, BothRebuilt)
  {
    hide SplitGuestName, NewWritten, BothRebuilt, RebuiltName, RebuiltOf;
    var rows := AllRows(s.last, s.clock, NewWritten);
    forall id | id in s.last
      ensures |RebuiltName(rows[id].names)| <= NAME_LIMIT
      ensures WithRebuilt(rows[id], s.clock + 1) == Row(BothRebuilt(s.last[id]), s.clock + 1)
    {
      RebuiltIsRight(s.last[id], s.clock);
    }
  }

  lemma UndoneCounts(s: Sys, rows: Table)
    requires rows == AllRows(s.last, s.clock + 1, BothRebuilt)
    ensures Awaiting(rows) == {} && Missing(rows) == {} && Mismatched(rows) == {}
  {
    hide SplitGuestName, RebuiltOf, NameMismatch;
    forall id | id in rows ensures rows[id].names == BothRebuilt(s.last[id]) && !NameMismatch(rows[id].names) {
      RebuiltIsRight(s.last[id], s.clock);
    }
    Alembic.NothingLeft(rows);
  }

  lemma UndoneIsCurrent(s: Sys, t: Sys)
    requires t.rows == AllRows(s.last, s.clock + 1, BothRebuilt) && t.last == s.last && t.reqs == map[]
    requires t.schema.guestPresent
    ensures GuestIsCurrent(t) <==> AllTidy(s.last)
  {
    hide SplitGuestName, RebuiltOf, Tidy, Fits;
    forall id | id in s.last
      ensures t.rows[id].names.guest == Some(s.last[id]) <==> Tidy(s.last[id]) && Fits(s.last[id])
    {
      RebuiltIsRight(s.last[id], s.clock);
    }
  }

  lemma ReadingGoes(s: Sys, d: bool)
    requires Init(s)
    ensures Goes(Undone(s), Change(ReadNew), Reading(s), d)
  {
    hide Goes, Change, AllRows, AllTidy, GuestIsCurrent, StateOf, Accepts, PhaseFits;
    var u := Undone(s);
    UndoneCounts(s, u.rows);
    UndoneIsCurrent(s, u);
    R2AndR3Fit();
    FittingIsAccepted(ReadNew, u.schema, u.rows);
    assert InPhase(u, ReadNew) == Reading(s);
    assert MayChange(u, ReadNew, d);
    Changes(u, ReadNew, d);
  }

  lemma UnrelaxGoes(s: Sys, d: bool)
    requires Init(s)
    ensures Goes(Reading(s), [Downgrade0003], Unrelaxed(s, ReadNew), d)
  {
    hide Goes, AllTidy, AllRows, Init, FillMissing, TooLong, Missing;
    var r := Reading(s);
    StartsQuiet(s);
    UndoneCounts(s, r.rows);
    NothingFilled(r.rows, r.clock);
    assert forall p :: !Allows(r, p);
    assert Enabled(r, Downgrade0003) && Apply(r, Downgrade0003) == Unrelaxed(s, ReadNew);
    GoesOne(r, Downgrade0003, d);
  }

  lemma NothingFilled(rows: Table, version: nat)
    requires Missing(rows) == {}
    ensures FillMissing(rows, version) == rows && !TooLong(rows, {})
  {
    hide RebuiltName;
    forall id | id in rows ensures rows[id].names.guest.Some? { assert id !in Missing(rows); }
  }

  /** dual_write, then legacy. */
  lemma OldPhaseGoes(s: Sys, phase: Phase, next: Phase, d: bool)
    requires Init(s) && (next == DualWrite || next == LegacyPhase) && (d ==> AllTidy(s.last))
    requires phase != NewOnly
    ensures Goes(Unrelaxed(s, phase), Change(next), Unrelaxed(s, next), d)
  {
    hide Goes, Change, AllRows, AllTidy, GuestIsCurrent, StateOf, Accepts, PhaseFits;
    var u := Unrelaxed(s, phase);
    UndoneCounts(s, u.rows);
    UndoneIsCurrent(s, u);
    R2AndR3Fit();
    FittingIsAccepted(next, u.schema, u.rows);
    assert InPhase(u, next) == Unrelaxed(s, next);
    Changes(u, next, d);
  }

  lemma UnexpandGoes(s: Sys, d: bool)
    requires Init(s)
    ensures Goes(Unrelaxed(s, LegacyPhase), [Downgrade0002], Returned(s), d)
  {
    hide Goes, AllTidy, AllRows, Init;
    var u := Unrelaxed(s, LegacyPhase);
    StartsQuiet(s);
    Unexpanded(s);
    assert forall p :: !Allows(u, p);
    assert Enabled(u, Downgrade0002) && Apply(u, Downgrade0002) == Returned(s);
    GoesOne(u, Downgrade0002, d);
  }

  lemma Unexpanded(s: Sys)
    ensures var rows := AllRows(s.last, s.clock + 1, BothRebuilt);
      && rows.Keys == s.last.Keys
      && (map id | id in rows :: DropNewColumns(rows[id])) == AllRows(s.last, s.clock + 1, OnlyRebuilt)
  {
    hide SplitGuestName, RebuiltOf;
    var rows := AllRows(s.last, s.clock + 1, BothRebuilt);
    forall id | id in rows ensures DropNewColumns(rows[id]) == AllRows(s.last, s.clock + 1, OnlyRebuilt)[id] {
      assert DropNewColumns(rows[id]) == Row(OnlyRebuilt(s.last[id]), s.clock + 1);
    }
  }

  /** The way back from 0004 to 0001, phase by phase and revision by revision, succeeds after
      every runbook whose names fit guest_name.  It ends with each booking's rebuilt name in
      guest_name and no trace of the new columns; that is the very table the runbook started
      from, versions aside, if and only if every name is tidy and fits, and then the whole
      way is a run of the kind the fidelity theorem asks for. */
  lemma ThereAndBack(s: Sys)
    requires Init(s) && AllClean(s.last) && AllShort(s.last)
    ensures Goes(s, Steps(s) + BACK, Returned(s), AllTidy(s.last))
    ensures Returned(s).schema == s.schema && Returned(s).phase == s.phase
    ensures (forall id :: id in s.rows ==> id in Returned(s).rows && Returned(s).rows[id].names == s.rows[id].names)
      <==> AllTidy(s.last)
  {
    hide AllClean, AllShort, AllTidy, Contracted, Undone, Reading, Unrelaxed, Returned, Goes, Change, Steps;
    var d := AllTidy(s.last);
    RunbookGoesThrough(s);
    Weaker(s, Steps(s), Contracted(s), d);
    UndoGoes(s, d);
    ReadingGoes(s, d);
    UnrelaxGoes(s, d);
    OldPhaseGoes(s, ReadNew, DualWrite, d);
    OldPhaseGoes(s, DualWrite, LegacyPhase, d);
    UnexpandGoes(s, d);
    var a := [Downgrade0004] + Change(ReadNew);
    var b := a + [Downgrade0003] + Change(DualWrite);
    GoesOn(Contracted(s), [Downgrade0004], Undone(s), Change(ReadNew), Reading(s), d);
    GoesOn(Contracted(s), a, Reading(s), [Downgrade0003], Unrelaxed(s, ReadNew), d);
    GoesOn(Contracted(s), a + [Downgrade0003], Unrelaxed(s, ReadNew), Change(DualWrite), Unrelaxed(s, DualWrite), d);
    GoesOn(Contracted(s), b, Unrelaxed(s, DualWrite), Change(LegacyPhase), Unrelaxed(s, LegacyPhase), d);
    GoesOn(Contracted(s), b + Change(LegacyPhase), Unrelaxed(s, LegacyPhase), [Downgrade0002], Returned(s), d);
    assert b + Change(LegacyPhase) + [Downgrade0002] == BACK;
    GoesOn(s, Steps(s), Contracted(s), BACK, Returned(s), d);
    SameTable(s);
  }

  lemma Weaker(s: Sys, steps: seq<Step>, t: Sys, d: bool)
    requires Goes(s, steps, t, true)
    ensures Goes(s, steps, t, d)
  {
  }

  lemma SameTable(s: Sys)
    requires Init(s)
    ensures Returned(s).schema == s.schema && Returned(s).phase == s.phase
    ensures (forall id :: id in s.rows ==> id in Returned(s).rows && Returned(s).rows[id].names == s.rows[id].names)
      <==> AllTidy(s.last)
  {
    hide SplitGuestName, RebuiltOf, Tidy, Fits;
    var t := Returned(s);
    forall id | id in s.rows
      ensures id in t.rows && (t.rows[id].names == s.rows[id].names <==> Tidy(s.last[id]) && Fits(s.last[id]))
    {
      RebuiltIsRight(s.last[id], s.clock);
      assert s.rows[id].names == NameCols(Some(s.last[id]), None, None);
    }
  }
}
