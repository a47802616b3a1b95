/** The schema revisions 0002 to 0004 as ordered steps on the live table. */
module Alembic {
  import opened Names
  import opened NameLaws
  import opened Store
  import opened Migration

  /** `checks` are the columns with a CHECK (... IS NOT NULL) constraint. */
  datatype Db = Db(schema: Schema, rows: Table, checks: set<Column>, clock: nat)

  predicate AtRevision(schema: Schema, n: int) {
    match n
    case 1 => schema == Schema(true, false, false, false, false, false)
    case 2 => schema == Schema(true, false, true, false, false, true)
    case 3 => schema == Schema(true, true, true, false, false, true)
    case 4 => schema == Schema(false, false, true, true, true, false)
    case _ => false
  }

  /** Absent columns hold nothing, mandatory ones hold something, and every
      version was handed out before now. */
  predicate WellFormed(db: Db) {
    forall id, c | id in db.rows ::
      var r := db.rows[id];
      && r.version < db.clock
      && (!Has(db.schema, c) ==> Cell(r.names, c).None?)
      && (Mandatory(db.schema, c) ==> Cell(r.names, c).Some?)
  }

  // ---- 0002: expand ----

  function Expand(db: Db): Db {
    db.(schema := db.schema.(newPresent := true, firstNotNull := false, lastNotNull := false, backfillIndex := true))
  }

  function Unexpand(db: Db): Db {
    db.(schema := db.schema.(newPresent := false, backfillIndex := false),
        rows := map id | id in db.rows :: DropNewColumns(db.rows[id]))
  }

  // ---- 0003: guest_name may be NULL ----

  function Relax(db: Db): Db {
    db.(schema := db.schema.(guestNullable := true))
  }

  datatype Outcome = Done | Unmigrated(rows: nat) | Halted | ValueTooLong

  function Unrelax(db: Db): (Db, Outcome) {
    if TooLong(db.rows, Missing(db.rows)) then (db, ValueTooLong)
    else (Db(db.schema.(guestNullable := false), FillMissing(db.rows, db.clock), db.checks, db.clock + 1), Done)
  }

  // ---- 0004: contract ----

  datatype Statement = AddCheck(c: Column) | Validate(c: Column) | SetNotNull(c: Column) | DropCheck(c: Column)

  const NOT_NULL_STEPS: seq<Statement> := [
    AddCheck(FirstName), Validate(FirstName), SetNotNull(FirstName), DropCheck(FirstName),
    AddCheck(LastName), Validate(LastName), SetNotNull(LastName), DropCheck(LastName)]

  predicate Complete(rows: Table, c: Column) {
    forall id :: id in rows ==> Cell(rows[id].names, c).Some?
  }

  /** One statement, committed on its own; None when the database refuses it. */
  function Execute(db: Db, s: Statement): Option<Db> {
    match s
    case AddCheck(c) => if c in db.checks then None else Some(db.(checks := db.checks + {c}))
    case Validate(c) => if c in db.checks && Complete(db.rows, c) then Some(db) else None
    case SetNotNull(c) =>
      if !Complete(db.rows, c) then None
      else if c == FirstName then Some(db.(schema := db.schema.(firstNotNull := true)))
      else if c == LastName then Some(db.(schema := db.schema.(lastNotNull := true)))
      else Some(db.(schema := db.schema.(guestNullable := false)))
    case DropCheck(c) => if c in db.checks then Some(db.(checks := db.checks - {c})) else None
  }

  /** The statements up to the first that is refused; true when all went through. */
  function ExecuteAll(db: Db, steps: seq<Statement>): (Db, bool)
    decreases |steps|
  {
    if steps == [] then (db, true) else
      match Execute(db, steps[0])
      case None => (db, false)
      case Some(next) => ExecuteAll(next, steps[1..])
  }

  function DropGuestColumn(db: Db): Db {
    db.(schema := db.schema.(guestPresent := false, guestNullable := false, backfillIndex := false),
        rows := map id | id in db.rows :: DropGuest(db.rows[id]))
  }

  /** What revision 0004 amounts to. */
  function Contract(db: Db): (Db, Outcome) {
    if Awaiting(db.rows) != {} then (db, Unmigrated(|Awaiting(db.rows)|))
    else if !Complete(db.rows, LastName) then
      (db.(schema := db.schema.(firstNotNull := true), checks := db.checks + {LastName}), Halted)
    else
      (DropGuestColumn(db.(schema := db.schema.(firstNotNull := true, lastNotNull := true))), Done)
  }

  function Uncontract(db: Db): (Db, Outcome) {
    if TooLong(db.rows, db.rows.Keys) then (db, ValueTooLong)
    else
      (Db(Schema(true, true, true, false, false, true), RebuildAll(db.rows, db.clock), db.checks, db.clock + 1), Done)
  }

  /** The eight statements leave both columns NOT NULL and no constraint behind,
      unless some row has no last_name: then the first half stays in force. */
  lemma NotNullSteps(db: Db)
    requires FirstName !in db.checks && LastName !in db.checks && Complete(db.rows, FirstName)
    ensures ExecuteAll(db, NOT_NULL_STEPS) ==
      if Complete(db.rows, LastName)
      then (db.(schema := db.schema.(firstNotNull := true, lastNotNull := true)), true)
      else (db.(schema := db.schema.(firstNotNull := true), checks := db.checks + {LastName}), false)
  {
    hide Complete;
    var a := db.(schema := db.schema.(firstNotNull := true));
    assert NOT_NULL_STEPS == StepsFor(FirstName) + NOT_NULL_STEPS[4..];
    assert NOT_NULL_STEPS[4..] == StepsFor(LastName) + [];
  }

  function StepsFor(c: Column): seq<Statement> {
    [AddCheck(c), Validate(c), SetNotNull(c), DropCheck(c)]
  }

  /** The running database. */
  class Database {
    var schema: Schema
    var rows: Table
    var checks: set<Column>
    var clock: nat

    function Value(): Db
      reads this
    {
      Db(schema, rows, checks, clock)
    }

    constructor (db: Db)
      ensures Value() == db
    {
      schema, rows, checks, clock := db.schema, db.rows, db.checks, db.clock;
    }

    method Upgrade0002()
      requires AtRevision(schema, 1)
      modifies this
      ensures Value() == Expand(old(Value())) && AtRevision(schema, 2)
    {
      schema := schema.(newPresent := true, firstNotNull := false, lastNotNull := false);
      schema := schema.(backfillIndex := true);
    }

    method Downgrade0002()
      requires AtRevision(schema, 2)
      modifies this
      ensures Value() == Unexpand(old(Value())) && AtRevision(schema, 1)
    {
      schema := schema.(backfillIndex := false);
      rows := map id | id in rows :: DropNewColumns(rows[id]);
      schema := schema.(newPresent := false);
    }

    method Upgrade0003()
      requires AtRevision(schema, 2)
      modifies this
      ensures Value() == Relax(old(Value())) && AtRevision(schema, 3)
    {
      schema := schema.(guestNullable := true);
    }

    method Downgrade0003() returns (r: Outcome)
      requires AtRevision(schema, 3)
      modifies this
      ensures (Value(), r) == Unrelax(old(Value()))
      ensures r == Done ==> AtRevision(schema, 2) && Missing(rows) == {}
    {
      if TooLong(rows, Missing(rows)) { return ValueTooLong; }
      NoneMissing(rows, clock);
      rows := FillMissing(rows, clock);
      clock := clock + 1;
      schema := schema.(guestNullable := false);
      r := Done;
    }

    method ExecuteSteps(steps: seq<Statement>) returns (ok: bool)
      modifies this
      ensures (Value(), ok) == ExecuteAll(old(Value()), steps)
    {
      ok := true;
      var i := 0;
      while i < |steps|
        invariant 0 <= i <= |steps| && ok
        invariant ExecuteAll(Value(), steps[i..]) == ExecuteAll(old(Value()), steps)
      {
        assert steps[i..][0] == steps[i] && steps[i..][1..] == steps[i + 1..];
        var next := Execute(Value(), steps[i]);
        if next.None? { return false; }
        schema, rows, checks, clock := next.value.schema, next.value.rows, next.value.checks, next.value.clock;
        i := i + 1;
      }
    }

    method Upgrade0004() returns (r: Outcome)
      requires AtRevision(schema, 3) && checks == {}
      modifies this
      ensures (Value(), r) == Contract(old(Value()))
      ensures r == Done ==> AtRevision(schema, 4)
    {
      var unmigrated := |Awaiting(rows)|;
      if unmigrated != 0 { return Unmigrated(unmigrated); }
      assert Awaiting(rows) == {};
      ghost var before := Value();
      AllMigrated(rows);
      NotNullSteps(before);
      var ok := ExecuteSteps(NOT_NULL_STEPS);
      if !ok { return Halted; }
      schema := schema.(backfillIndex := false);
      rows := map id | id in rows :: DropGuest(rows[id]);
      schema := schema.(guestPresent := false, guestNullable := false);
      r := Done;
    }

    method Downgrade0004() returns (r: Outcome)
      requires AtRevision(schema, 4)
      modifies this
      ensures (Value(), r) == Uncontract(old(Value()))
      ensures r == Done ==> AtRevision(schema, 3)
    {
      if TooLong(rows, rows.Keys) { return ValueTooLong; }
      schema := schema.(guestPresent := true, guestNullable := true);
      rows := RebuildAll(rows, clock);
      clock := clock + 1;
      schema := schema.(backfillIndex := true);
      schema := schema.(lastNotNull := false);
      schema := schema.(firstNotNull := false);
      r := Done;
    }
  }

  lemma AllMigrated(rows: Table)
    requires Awaiting(rows) == {}
    ensures Complete(rows, FirstName)
  {
    forall id | id in rows ensures Cell(rows[id].names, FirstName).Some? {
      assert id !in Awaiting(rows);
    }
  }

  // ---- What the revisions promise ----

  /** 0002 can be undone without a trace. */
  lemma ExpandRoundTrip(db: Db)
    requires AtRevision(db.schema, 1) && WellFormed(db)
    ensures Unexpand(Expand(db)) == db
  {
    var back := Unexpand(Expand(db));
    forall id | id in db.rows ensures back.rows[id] == db.rows[id] {
      assert !Has(db.schema, FirstName) && !Has(db.schema, LastName);
      assert Cell(db.rows[id].names, FirstName).None? && Cell(db.rows[id].names, LastName).None?;
    }
    assert back.rows == db.rows;
  }

  /** 0004 goes through, or leaves the database as it was, unless some row has a
      first_name and no last_name. */
  lemma ContractIsAtomic(db: Db)
    ensures Contract(db).1 == Halted <==> Awaiting(db.rows) == {} && !Complete(db.rows, LastName)
    ensures (forall id :: id in db.rows ==> Together(db.rows[id].names)) ==> Contract(db).1 != Halted
    ensures Contract(db).1.Unmigrated? ==> Contract(db).0 == db
  {
    if Awaiting(db.rows) == {} { AllMigrated(db.rows); }
  }

  /** A half-applied 0004 cannot simply be run again: the constraint it left
      behind stops it, even after the missing names have been filled in. */
  lemma HaltedStaysHalted(db: Db)
    requires LastName in db.checks && FirstName !in db.checks && Complete(db.rows, FirstName)
    ensures !ExecuteAll(db, NOT_NULL_STEPS).1
  {
  }

  /** Every row's new columns are the split of the name given for it. */
  predicate SplitOf(rows: Table, names: map<int, string>) {
    rows.Keys == names.Keys && forall id :: id in rows ==> Filled(rows[id].names, SplitGuestName(names[id]))
  }

  lemma RebuiltOfFilled(n: NameCols, g: string)
    requires Filled(n, SplitGuestName(g))
    ensures var r := RebuiltName(n);
      && r == Rebuilt(SplitGuestName(g)) && |r| <= |g|
      && !NameMismatch(n.(guest := Some(r)))
      && (Settled(g) ==> SplitGuestName(r) == SplitGuestName(g))
      && (r == g <==> Tidy(g) && Fits(g))
  {
    RebuiltRoundTrip(g);
    RebuiltExactly(g);
    hide SplitGuestName, Rebuilt, Settled, Fits, Tidy, Legacy;
    var p := SplitGuestName(g);
    assert RebuiltName(n) == Rebuilt(p) by { RebuiltNameOf(n, p); }
    hide RebuiltName;
    assert RebuiltName(n.(guest := Some(RebuiltName(n)))) == RebuiltName(n) by {
      RebuiltNameOf(n.(guest := Some(RebuiltName(n))), p);
    }
  }

  lemma RebuiltNameOf(n: NameCols, p: Parts)
    requires Filled(n, p)
    ensures RebuiltName(n) == Rebuilt(p)
  {
  }

  /** The rebuilt name is the original one exactly when that was tidy and fitted:
      single blanks alone are not enough. */
  lemma RebuiltExactly(g: string)
    ensures Rebuilt(SplitGuestName(g)) == g <==> Tidy(g) && Fits(g)
  {
    CleanedIsTidy(g);
    RebuiltOrShorter(g);
    if Tidy(g) { CleanedOfTidy(g); }
  }

  /** A row whose new columns are kept and whose guest_name is rebuilt from them. */
  predicate Restored(before: NameCols, after: NameCols, g: string) {
    && after.first == before.first && after.last == before.last
    && after.guest == Some(Rebuilt(SplitGuestName(g)))
    && (after.guest == Some(g) <==> Tidy(g) && Fits(g))
  }

  lemma RebuiltRow(r: Row, version: nat, g: string)
    requires Filled(r.names, SplitGuestName(g)) && |g| <= NAME_LIMIT
    ensures var n := WithRebuilt(r, version).names;
      && Restored(r.names, n, g) && !NameMismatch(n) && n.first.Some? && n.guest.Some?
    ensures |RebuiltName(r.names)| <= NAME_LIMIT
  {
    RebuiltOfFilled(r.names, g);
  }

  lemma NothingLeft(rows: Table)
    requires forall id :: id in rows ==>
      var n := rows[id].names; n.first.Some? && n.guest.Some? && !NameMismatch(n)
    ensures Awaiting(rows) == {} && Missing(rows) == {} && Mismatched(rows) == {}
  {
    hide NameMismatch;
    forall id ensures id !in Awaiting(rows) && id !in Missing(rows) && id !in Mismatched(rows) {}
  }

  /** 0004 and back: whatever guest_name held, stale or NULL, the rebuilt column
      agrees with the new ones in every row, and all four phases are possible. */
  lemma ContractRoundTrip(db: Db, names: map<int, string>)
    requires SplitOf(db.rows, names)
    requires forall id :: id in names ==> |names[id]| <= NAME_LIMIT
    ensures Contract(db).1 == Done
    ensures var up := Contract(db).0;
      && Uncontract(up).1 == Done
      && var down := Uncontract(up).0;
         && down.rows.Keys == db.rows.Keys
         && (forall id :: id in db.rows ==> Restored(db.rows[id].names, down.rows[id].names, names[id]))
         && forall p :: Accepts(p, StateOf(down.schema, down.rows))
  {
    hide SplitGuestName, RebuiltName, NameMismatch, Restored;
    forall id ensures id !in Awaiting(db.rows) {}
    var up := Contract(db).0;
    var down := Uncontract(up).0;
    forall id | id in db.rows
      ensures Filled(up.rows[id].names, SplitGuestName(names[id]))
      ensures Restored(db.rows[id].names, WithRebuilt(up.rows[id], up.clock).names, names[id])
    {
      RebuiltRow(up.rows[id], up.clock, names[id]);
      RestoredFrom(db.rows[id].names, up.rows[id].names, WithRebuilt(up.rows[id], up.clock).names, names[id]);
    }
    forall id | id in up.rows
      ensures var n := WithRebuilt(up.rows[id], up.clock).names;
        n.first.Some? && n.guest.Some? && !NameMismatch(n) && |RebuiltName(up.rows[id].names)| <= NAME_LIMIT
    {
      RebuiltRow(up.rows[id], up.clock, names[id]);
    }
    assert down.rows == RebuildAll(up.rows, up.clock);
    NothingLeft(down.rows);
    AllPhases(down.schema, down.rows);
  }

  lemma RestoredFrom(a: NameCols, b: NameCols, after: NameCols, g: string)
    requires a.first == b.first && a.last == b.last && Restored(b, after, g)
    ensures Restored(a, after, g)
  {
  }

  lemma AllPhases(schema: Schema, rows: Table)
    requires schema.guestPresent && schema.guestNullable && schema.newPresent
    requires Awaiting(rows) == {} && Missing(rows) == {} && Mismatched(rows) == {}
    ensures forall p :: Accepts(p, StateOf(schema, rows))
  {
  }

  lemma NoneMissing(rows: Table, version: nat)
    ensures Missing(FillMissing(rows, version)) == {}
  {
    hide RebuiltName;
    forall id ensures id !in Missing(FillMissing(rows, version)) {}
  }

  /** 0003 undone: rows written in new_only get a guest_name that agrees with
      their new columns, and no other row's standing changes. */
  lemma UnrelaxRepairs(db: Db, names: map<int, string>)
    requires forall id :: id in Missing(db.rows) ==>
      id in names && |names[id]| <= NAME_LIMIT && Filled(db.rows[id].names, SplitGuestName(names[id]))
    ensures Unrelax(db).1 == Done
    ensures var down := Unrelax(db).0;
      && Missing(down.rows) == {}
      && Mismatched(down.rows) == Mismatched(db.rows)
      && Awaiting(down.rows) == Awaiting(db.rows)
      && forall id :: id in db.rows && id !in Missing(db.rows) ==> down.rows[id] == db.rows[id]
  {
    hide SplitGuestName, RebuiltName, Legacy, Restored;
    forall id | id in Missing(db.rows)
      ensures |RebuiltName(db.rows[id].names)| <= NAME_LIMIT
      ensures !NameMismatch(WithRebuilt(db.rows[id], db.clock).names)
    {
      RebuiltRow(db.rows[id], db.clock, names[id]);
    }
    NoneMissing(db.rows, db.clock);
    hide NameMismatch;
    RepairedSets(db.rows, db.clock);
  }

  lemma RepairedSets(rows: Table, version: nat)
    requires forall id :: id in Missing(rows) ==> !NameMismatch(WithRebuilt(rows[id], version).names)
    ensures var filled := FillMissing(rows, version);
      Mismatched(filled) == Mismatched(rows) && Awaiting(filled) == Awaiting(rows)
  {
    hide RebuiltName, Legacy;
    var filled := FillMissing(rows, version);
    forall id | id in rows ensures NameMismatch(filled[id].names) == NameMismatch(rows[id].names) {
      if rows[id].names.guest.None? { assert id in Missing(rows); }
    }
    hide NameMismatch;
  }
}
