/** The steps of the protocol are the revisions and the backfill's batches, and undoing
    0004 repairs what new_only has left behind. */
module Rollback {
  import opened Names
  import opened NameLaws
  import opened Store
  import opened Migration
  import opened Protocol
  import opened Phases
  import opened Fidelity
  import Guard
  import opened Careful
  import Alembic
  import Backfill

  function Database(s: Sys): Alembic.Db {
    Alembic.Db(s.schema, s.rows, {}, s.clock)
  }

  /** The schema steps of the protocol do to the table what the revisions do. */
  lemma UpgradesAreTheRevisions(s: Sys)
    ensures Alembic.AtRevision(s.schema, 1) && Enabled(s, Upgrade0002) ==>
      Database(Apply(s, Upgrade0002)) == Alembic.Expand(Database(s))
    ensures Alembic.AtRevision(s.schema, 2) && Enabled(s, Upgrade0003) ==>
      Database(Apply(s, Upgrade0003)) == Alembic.Relax(Database(s))
  {
  }

  lemma DowngradesAreTheRevisions(s: Sys)
    ensures Alembic.AtRevision(s.schema, 4) && !TooLong(s.rows, s.rows.Keys) ==>
      (Database(DoDowngrade0004(s)), Alembic.Done) == Alembic.Uncontract(Database(s))
    ensures Alembic.AtRevision(s.schema, 3) && !TooLong(s.rows, Missing(s.rows)) ==>
      (Database(DoDowngrade0003(s)), Alembic.Done) == Alembic.Unrelax(Database(s))
    ensures Alembic.AtRevision(s.schema, 2) ==> Database(DoDowngrade0002(s)) == Alembic.Unexpand(Database(s))
  {
  }

  /** 0004 is three of them, and they go through exactly when the revision does. */
  lemma ContractIsThreeSteps(s: Sys)
    requires Alembic.AtRevision(s.schema, 3) && Unlocked(s)
    ensures Run(s, [FirstNotNull, LastNotNull, DropGuestName]) <==> Alembic.Contract(Database(s)).1 == Alembic.Done
    ensures Run(s, [FirstNotNull, LastNotNull, DropGuestName]) ==>
      Database(After(s, [FirstNotNull, LastNotNull, DropGuestName])) == Alembic.Contract(Database(s)).0
  {
    hide Run, After, NoRowLacks, Awaiting, DropGuest, Alembic.Complete, Apply, Enabled;
    NoneLacks(s);
    SameMeaning(s);
    ThreeSteps(s, FirstNotNull, LastNotNull, DropGuestName);
    AreEnabled(s);
    if NoRowLacks(s, FirstName) && NoRowLacks(s, LastName) { HaveEffect(s); }
  }

  lemma AreEnabled(s: Sys)
    requires Alembic.AtRevision(s.schema, 3) && Unlocked(s)
    ensures Enabled(s, FirstNotNull) <==> NoRowLacks(s, FirstName)
    ensures Enabled(s, FirstNotNull) ==> var a := Apply(s, FirstNotNull);
      && (Enabled(a, LastNotNull) <==> NoRowLacks(s, LastName))
      && (Enabled(a, LastNotNull) ==> Enabled(Apply(a, LastNotNull), DropGuestName))
  {
    hide Lockable;
    if Enabled(s, FirstNotNull) { SameRows(s, Apply(s, FirstNotNull)); }
    hide NoRowLacks;
  }

  lemma HaveEffect(s: Sys)
    requires Alembic.AtRevision(s.schema, 3) && Unlocked(s) && NoRowLacks(s, FirstName) && NoRowLacks(s, LastName)
    ensures Enabled(s, FirstNotNull) && Enabled(Apply(s, FirstNotNull), LastNotNull)
    ensures Enabled(Apply(Apply(s, FirstNotNull), LastNotNull), DropGuestName)
    ensures Database(Apply(Apply(Apply(s, FirstNotNull), LastNotNull), DropGuestName))
      == Alembic.DropGuestColumn(Database(s).(schema := s.schema.(firstNotNull := true, lastNotNull := true)))
  {
    hide DropGuest;
    AreEnabled(s);
    hide NoRowLacks;
  }

  lemma NoneLacks(s: Sys)
    ensures NoRowLacks(s, FirstName) <==> Awaiting(s.rows) == {}
  {
    if NoRowLacks(s, FirstName) {
      forall id ensures id !in Awaiting(s.rows) {}
    } else {
      var id :| id in s.rows && Cell(s.rows[id].names, FirstName).None?;
      assert id in Awaiting(s.rows);
    }
  }

  lemma SameMeaning(s: Sys)
    ensures NoRowLacks(s, LastName) <==> Alembic.Complete(s.rows, LastName)
  {
  }

  lemma SameRows(s: Sys, t: Sys)
    requires s.rows == t.rows
    ensures NoRowLacks(s, LastName) <==> NoRowLacks(t, LastName)
  {
  }

  lemma ThreeSteps(s: Sys, a: Step, b: Step, c: Step)
    ensures Run(s, [a, b, c]) <==>
      Enabled(s, a) && Enabled(Apply(s, a), b) && Enabled(Apply(Apply(s, a), b), c)
    ensures Run(s, [a, b, c]) ==> After(s, [a, b, c]) == Apply(Apply(Apply(s, a), b), c)
  {
    hide Enabled, Apply;
    FirstStep(s, a, [b, c]);
    if Enabled(s, a) {
      var t := Apply(s, a);
      FirstStep(t, b, [c]);
      if Enabled(t, b) { FirstStep(Apply(t, b), c, []); }
    }
  }

  lemma FirstStep(s: Sys, a: Step, rest: seq<Step>)
    ensures Run(s, [a] + rest) <==> Enabled(s, a) && Run(Apply(s, a), rest)
    ensures Run(s, [a] + rest) ==> After(s, [a] + rest) == After(Apply(s, a), rest)
  {
  }

  /** Each row keeps its new columns and has its guest_name rebuilt from them, and the guard
      would let any of the four phases in. */
  ghost predicate Healed(before: Sys, after: Sys) {
    && after.rows.Keys == before.rows.Keys && after.last.Keys == before.rows.Keys
    && (forall id :: id in before.rows ==>
          Alembic.Restored(before.rows[id].names, after.rows[id].names, after.last[id]))
    && (forall p :: Accepts(p, StateOf(after.schema, after.rows)))
  }

  /** Undoing 0004 in any state of a disciplined run, however many renames new_only has seen,
      leaves nothing stale behind. */
  lemma RollbackHeals(s: Sys, steps: seq<Step>)
    requires Init(s) && DisciplinedRun(s, steps)
    ensures Run(s, steps)
    ensures var t := After(s, steps);
      !t.schema.guestPresent && Unlocked(t) && (forall id :: id in t.last ==> |t.last[id]| <= NAME_LIMIT) ==>
        Enabled(t, Downgrade0004) && Healed(t, DoDowngrade0004(t))
  {
    var t := Guard.Reached(s, steps);
    hide Run, After, DisciplinedRun, Inv, Init, Healed, Unlocked;
    if !t.schema.guestPresent && Unlocked(t) && forall id :: id in t.last ==> |t.last[id]| <= NAME_LIMIT {
      Heals(t);
    }
  }

  lemma Heals(t: Sys)
    requires Inv(t) && !t.schema.guestPresent && Unlocked(t)
    requires forall id :: id in t.last ==> |t.last[id]| <= NAME_LIMIT
    ensures Enabled(t, Downgrade0004) && Healed(t, DoDowngrade0004(t))
  {
    hide SplitGuestName, SplitOrShaped, RequestsOk, BatchOk, PhasesFit, RebuiltName, NameMismatch, Alembic.Restored,
      StateOf, Accepts, Complete, Unlocked;
    assert t.retired && Trusted(t) by { assert May(t, t.phase); }
    hide Trusted, Settles;
    forall id | id in t.rows
      ensures var n := WithRebuilt(t.rows[id], t.clock).names;
        && Alembic.Restored(t.rows[id].names, n, t.last[id]) && !NameMismatch(n) && n.first.Some? && n.guest.Some?
      ensures |RebuiltName(t.rows[id].names)| <= NAME_LIMIT
    {
      assert RowOk(t.rows[id], t.last[id], Of(t));
      Alembic.RebuiltRow(t.rows[id], t.clock, t.last[id]);
    }
    var u := DoDowngrade0004(t);
    assert u.rows == RebuildAll(t.rows, t.clock);
    Alembic.NothingLeft(u.rows);
    Alembic.AllPhases(u.schema, u.rows);
  }

  /** Is the guest_name of this row the last name once 0003 is undone? */
  predicate CurrentAfter(n: NameCols, name: string) {
    if n.guest.None? then Tidy(name) && Fits(name) else n.guest == Some(name)
  }

  /** The way back from 0003 in any state of a disciplined run: it succeeds, every booking has a
      guest_name again, so that legacy and dual_write are let in, and read_new is as before; and
      the rows whose guest_name is then the last name are those that kept it, and those booked
      in new_only whose name is tidy and fits. */
  lemma UnrelaxHeals(s: Sys, steps: seq<Step>)
    requires Init(s) && DisciplinedRun(s, steps)
    ensures Run(s, steps)
    ensures var t := After(s, steps);
      && Unlocked(t) && t.schema.newPresent && t.schema.guestPresent && t.schema.guestNullable
      && (forall id :: id in t.last ==> |t.last[id]| <= NAME_LIMIT) ==>
        Enabled(t, Downgrade0003) && Relieved(t, DoDowngrade0003(t))
  {
    var t := Guard.Reached(s, steps);
    hide Run, After, DisciplinedRun, Kept, PhasesFit, Init, Relieved, Unlocked, TooLong;
    if && Unlocked(t) && t.schema.newPresent && t.schema.guestPresent && t.schema.guestNullable
       && forall id :: id in t.last ==> |t.last[id]| <= NAME_LIMIT {
      Relieves(t);
    }
  }

  ghost predicate Relieved(before: Sys, after: Sys) {
    && after.rows.Keys == before.rows.Keys && after.last.Keys == before.rows.Keys
    && (forall id :: id in before.rows ==>
          (after.rows[id].names.guest == Some(after.last[id]) <==> CurrentAfter(before.rows[id].names, after.last[id])))
    && Accepts(LegacyPhase, StateOf(after.schema, after.rows)) && Accepts(DualWrite, StateOf(after.schema, after.rows))
    && (Accepts(ReadNew, StateOf(after.schema, after.rows)) <==> Accepts(ReadNew, StateOf(before.schema, before.rows)))
  }

  lemma UnrelaxedRow(r: Row, version: nat, name: string)
    requires r.names.guest.None? ==> Filled(r.names, SplitGuestName(name))
    ensures var n := if r.names.guest.None? then WithRebuilt(r, version).names else r.names;
      n.guest == Some(name) <==> CurrentAfter(r.names, name)
  {
    hide SplitGuestName, RebuiltName, Tidy, Fits;
    if r.names.guest.None? { Alembic.RebuiltOfFilled(r.names, name); }
  }

  lemma Relieves(t: Sys)
    requires Kept(t) && Unlocked(t) && t.schema.newPresent && t.schema.guestPresent && t.schema.guestNullable
    requires forall id :: id in t.last ==> |t.last[id]| <= NAME_LIMIT
    ensures Enabled(t, Downgrade0003) && Relieved(t, DoDowngrade0003(t))
  {
    hide SplitGuestName, RebuiltName, CurrentAfter, PhaseOk, RequestsOk, BatchOk, Unlocked, WithRebuilt;
    var u := DoDowngrade0003(t);
    forall id | id in t.rows
      ensures t.rows[id].names.guest.None? ==> Filled(t.rows[id].names, SplitGuestName(t.last[id]))
      ensures u.rows[id].names.guest == Some(t.last[id]) <==> CurrentAfter(t.rows[id].names, t.last[id])
    {
      if t.rows[id].names.guest.None? { MissingIsFilled(t, id); }
      UnrelaxedRow(t.rows[id], t.clock, t.last[id]);
    }
    Alembic.UnrelaxRepairs(Database(t), t.last);
    UnrelaxedAccepts(t, u);
  }

  lemma UnrelaxedAccepts(t: Sys, u: Sys)
    requires t.schema.newPresent && t.schema.guestPresent && u.schema == t.schema.(guestNullable := false)
    requires Missing(u.rows) == {} && Awaiting(u.rows) == Awaiting(t.rows) && Mismatched(u.rows) == Mismatched(t.rows)
    ensures Accepts(LegacyPhase, StateOf(u.schema, u.rows)) && Accepts(DualWrite, StateOf(u.schema, u.rows))
    ensures Accepts(ReadNew, StateOf(u.schema, u.rows)) <==> Accepts(ReadNew, StateOf(t.schema, t.rows))
  {
    hide Missing, Awaiting, Mismatched;
  }

  /** After a careful run with tidy names that fit, nothing at all is left behind: every
      guest_name is the last name, and the three phases of revision 0002 are let in. */
  lemma CarefulWayBack(s: Sys, steps: seq<Step>)
    requires Init(s) && CarefulRun(s, steps)
    ensures Run(s, steps)
    ensures var t := After(s, steps);
      && Enabled(t, Downgrade0003) && t.phase == ReadNew
      && (forall id :: id in t.last ==> Tidy(t.last[id]) && Fits(t.last[id]) && |t.last[id]| <= NAME_LIMIT) ==>
        var u := DoDowngrade0003(t);
        && (forall id :: id in u.rows ==> id in u.last && u.rows[id].names.guest == Some(u.last[id]))
        && forall p :: p != NewOnly ==> Accepts(p, StateOf(u.schema, u.rows))
  {
    assert AllNear(s) by { StartsNear(s); }
    InitIsOk(s);
    hide Init, Kept, PhasesFit, AllNear, Run, After, CarefulRun, DisciplinedRun, Enabled, DoDowngrade0003, Tidy, Fits,
      StateOf, Accepts;
    Careful.RunKeeps(s, steps);
    var t := After(s, steps);
    if && Enabled(t, Downgrade0003) && t.phase == ReadNew
       && forall id :: id in t.last ==> Tidy(t.last[id]) && Fits(t.last[id]) && |t.last[id]| <= NAME_LIMIT {
      GoesAllTheWay(t);
    }
  }

  lemma CareRow(r: Row, version: nat, name: string)
    requires Near(r.names, name) && Filled(r.names, SplitGuestName(name)) && Tidy(name) && Fits(name)
    ensures var n := if r.names.guest.None? then WithRebuilt(r, version).names else r.names;
      n.guest == Some(name) && n.first.Some? && !NameMismatch(n)
  {
    hide SplitGuestName, RebuiltName, NameMismatch, Tidy, Fits, Rebuilt;
    Alembic.RebuiltOfFilled(r.names, name);
  }

  lemma CareRows(t: Sys)
    requires Kept(t) && AllNear(t) && t.phase == ReadNew
    requires forall id :: id in t.last ==> Tidy(t.last[id]) && Fits(t.last[id])
    ensures var rows := FillMissing(t.rows, t.clock);
      && rows.Keys == t.rows.Keys == t.last.Keys
      && forall id :: id in rows ==>
           rows[id].names.guest == Some(t.last[id]) && rows[id].names.first.Some? && !NameMismatch(rows[id].names)
  {
    assert t.rows.Keys == t.last.Keys;
    hide Kept, SplitGuestName, NameMismatch, Tidy, Fits, Near, WithRebuilt;
    forall id | id in t.rows
      ensures var r := FillMissing(t.rows, t.clock)[id];
        r.names.guest == Some(t.last[id]) && r.names.first.Some? && !NameMismatch(r.names)
    {
      FetchedContent(t, id);
      CareRow(t.rows[id], t.clock, t.last[id]);
    }
  }

  lemma GoesAllTheWay(t: Sys)
    requires Kept(t) && AllNear(t) && Enabled(t, Downgrade0003) && t.phase == ReadNew
    requires forall id :: id in t.last ==> Tidy(t.last[id]) && Fits(t.last[id])
    ensures var u := DoDowngrade0003(t);
      && (forall id :: id in u.rows ==> id in u.last && u.rows[id].names.guest == Some(u.last[id]))
      && forall p :: p != NewOnly ==> Accepts(p, StateOf(u.schema, u.rows))
  {
    var u := DoDowngrade0003(t);
    CareRows(t);
    hide Kept, AllNear, NameMismatch, Tidy, Fits, FillMissing, TooLong, Missing, Awaiting, Mismatched;
    Alembic.NothingLeft(u.rows);
    OldPhases(u.schema, u.rows);
  }

  lemma OldPhases(schema: Schema, rows: Table)
    requires schema.guestPresent && schema.newPresent
    requires Awaiting(rows) == {} && Missing(rows) == {} && Mismatched(rows) == {}
    ensures forall p :: p != NewOnly ==> Accepts(p, StateOf(schema, rows))
  {
  }

  /** A batch of the backfill script, from its SELECT to its COMMIT with nobody in between, is
      the protocol's locking and filling; what the protocol lets in between, requests on other
      rows and queries, is what the script's traffic stands for. */
  lemma BatchIsLockAndFill(s: Sys, ids: set<int>, after: int, locked: set<int>)
    requires Enabled(s, Lock(ids)) && ids <= Backfill.Eligible(s.rows, after, locked)
    ensures Enabled(DoLock(s, ids), Fill)
    ensures var t := DoFill(DoLock(s, ids));
      t == s.(rows := Backfill.FillIds(s.rows, ids, s.clock), clock := s.clock + 1)
  {
    hide SplitGuestName;
    var t := DoFill(DoLock(s, ids));
    forall id | id in s.rows ensures t.rows[id] == Backfill.FillIds(s.rows, ids, s.clock)[id] {}
    assert t.rows == Backfill.FillIds(s.rows, ids, s.clock);
  }
}
