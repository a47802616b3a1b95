/** The application's side of the guest_name migration: four phases, the columns
    each one writes and reads, and the guard in front of a phase change. */
module Migration {
  import opened Names
  import opened Store

  datatype Phase = LegacyPhase | DualWrite | ReadNew | NewOnly

  function WriteColumns(p: Phase): seq<Column> {
    match p
    case LegacyPhase => [GuestName]
    case DualWrite => [GuestName, FirstName, LastName]
    case ReadNew => [GuestName, FirstName, LastName]
    case NewOnly => [FirstName, LastName]
  }

  function ReadColumns(p: Phase): seq<Column> {
    match p
    case LegacyPhase => [GuestName]
    case DualWrite => [GuestName]
    case ReadNew => [FirstName, LastName]
    case NewOnly => [FirstName, LastName]
  }

  /** What the guard looks at; a count is None when its columns do not exist. */
  datatype SchemaState = SchemaState(
    guestPresent: bool, guestNullable: bool, newPresent: bool,
    awaiting: Option<nat>, mismatched: Option<nat>, missing: Option<nat>)

  function StateOf(schema: Schema, rows: Table): SchemaState {
    SchemaState(
      schema.guestPresent,
      schema.guestPresent && schema.guestNullable,
      schema.newPresent,
      if schema.newPresent then Some(|Awaiting(rows)|) else None,
      if schema.newPresent && schema.guestPresent then Some(|Mismatched(rows)|) else None,
      if schema.guestPresent then Some(|Missing(rows)|) else None)
  }

  datatype Reason =
    | GuestDropped
    | NewColumnsMissing
    | NoGuestName(rows: nat)
    | AwaitBackfill(rows: nat)
    | NamesDisagree(rows: nat)
    | GuestNotNull

  predicate Positive(n: Option<nat>) {
    n.Some? && n.value > 0
  }

  function Refusal(target: Phase, st: SchemaState): Option<Reason> {
    var written, read := WriteColumns(target), ReadColumns(target);
    if GuestName in written + read && !st.guestPresent then Some(GuestDropped)
    else if FirstName in written + read && !st.newPresent then Some(NewColumnsMissing)
    else if GuestName in read && Positive(st.missing) then Some(NoGuestName(st.missing.value))
    else if FirstName in read && Positive(st.awaiting) then Some(AwaitBackfill(st.awaiting.value))
    else if FirstName in read && Positive(st.mismatched) then Some(NamesDisagree(st.mismatched.value))
    else if GuestName !in written && st.guestPresent && !st.guestNullable then Some(GuestNotNull)
    else None
  }

  predicate Accepts(target: Phase, st: SchemaState) {
    Refusal(target, st).None?
  }

  predicate ReadsGuest(p: Phase) {
    p == LegacyPhase || p == DualWrite
  }

  /** Why a phase is refused, and how many rows are in its way: a column it uses is not there;
      else rows without a guest_name it would show, or without the new columns it would show,
      or with new columns that contradict a guest_name; else new_only would leave a mandatory
      guest_name out. */
  lemma RefusalSays(p: Phase, schema: Schema, rows: Table)
    ensures var why := Refusal(p, StateOf(schema, rows));
      var there := (p == NewOnly || schema.guestPresent) && (p == LegacyPhase || schema.newPresent);
      && (why == Some(GuestDropped) <==> p != NewOnly && !schema.guestPresent)
      && (why == Some(NewColumnsMissing) <==>
            (p == NewOnly || schema.guestPresent) && p != LegacyPhase && !schema.newPresent)
      && (forall n :: why == Some(NoGuestName(n)) <==> there && ReadsGuest(p) && n == |Missing(rows)| && n > 0)
      && (forall n :: why == Some(AwaitBackfill(n)) <==> there && !ReadsGuest(p) && n == |Awaiting(rows)| && n > 0)
      && (forall n :: why == Some(NamesDisagree(n)) <==>
            there && !ReadsGuest(p) && |Awaiting(rows)| == 0 && schema.guestPresent && n == |Mismatched(rows)| && n > 0)
      && (why == Some(GuestNotNull) <==>
            && there && p == NewOnly && |Awaiting(rows)| == 0 && schema.guestPresent && !schema.guestNullable
            && |Mismatched(rows)| == 0)
  {
    hide Missing, Awaiting, Mismatched;
  }

  /** Some phase serves a schema and its rows exactly when one of the two
      representations is complete: every row has its guest_name, or every row has
      its new columns and none of them contradicts a guest_name. */
  lemma SomePhaseFits(schema: Schema, rows: Table)
    ensures (exists p :: Accepts(p, StateOf(schema, rows))) <==>
      || (schema.guestPresent && Missing(rows) == {})
      || (schema.newPresent && Awaiting(rows) == {} && (schema.guestPresent ==> Mismatched(rows) == {}))
  {
    hide Missing, Awaiting, Mismatched;
    var st := StateOf(schema, rows);
    NoneIsZero(Missing(rows));
    NoneIsZero(Awaiting(rows));
    NoneIsZero(Mismatched(rows));
    if schema.guestPresent && Missing(rows) == {} {
      assert Accepts(LegacyPhase, st);
    } else if schema.newPresent && Awaiting(rows) == {} && (schema.guestPresent ==> Mismatched(rows) == {}) {
      assert Accepts(if schema.guestPresent then ReadNew else NewOnly, st);
    }
  }

  function Rank(p: Phase): nat {
    match p
    case LegacyPhase => 0
    case DualWrite => 1
    case ReadNew => 2
    case NewOnly => 3
  }

  /** The phase a process configured for one ends up in. */
  function Reconciled(configured: Phase, st: SchemaState): Phase {
    if Accepts(configured, st) then configured
    else if Accepts(NewOnly, st) then NewOnly
    else if Accepts(ReadNew, st) then ReadNew
    else if Accepts(DualWrite, st) then DualWrite
    else if Accepts(LegacyPhase, st) then LegacyPhase
    else configured
  }

  /** The phase the running process is in. */
  class Control {
    var current: Phase

    constructor (configured: Phase)
      ensures current == configured
    {
      current := configured;
    }

    method SetPhase(target: Phase)
      modifies this
      ensures current == target
    {
      current := target;
    }

    /** PUT /admin/migration, given the state its check read. */
    method PutMigration(target: Phase, seen: SchemaState) returns (reason: Option<Reason>)
      modifies this
      ensures reason == Refusal(target, seen)
      ensures current == if Accepts(target, seen) then target else old(current)
    {
      reason := Refusal(target, seen);
      if reason.Some? { return; }
      SetPhase(target);
    }

    /** At startup: keep the configured phase if the schema supports it, else
        fall back to the most advanced phase it does support. */
    method ReconcileWithSchema(st: SchemaState)
      modifies this
      ensures current == Reconciled(old(current), st)
    {
      hide Accepts;
      if Accepts(current, st) { return; }
      var candidates := [NewOnly, ReadNew, DualWrite, LegacyPhase];
      for i := 0 to |candidates|
        invariant current == old(current)
        invariant forall j :: 0 <= j < i ==> !Accepts(candidates[j], st)
      {
        if Accepts(candidates[i], st) {
          assert i > 0 ==> !Accepts(candidates[0], st);
          assert i > 1 ==> !Accepts(candidates[1], st);
          assert i > 2 ==> !Accepts(candidates[2], st);
          SetPhase(candidates[i]);
          return;
        }
      }
      assert !Accepts(candidates[0], st) && !Accepts(candidates[1], st);
      assert !Accepts(candidates[2], st) && !Accepts(candidates[3], st);
    }
  }

  /** Keeps an accepted phase, else takes the most advanced accepted one; and ends in an
      accepted one whenever there is one. */
  lemma ReconciledIsBest(configured: Phase, st: SchemaState)
    ensures var p := Reconciled(configured, st);
      && (Accepts(configured, st) ==> p == configured)
      && (Accepts(p, st) <==> exists q :: Accepts(q, st))
      && (!Accepts(p, st) ==> p == configured)
      && (!Accepts(configured, st) ==> forall q :: Accepts(q, st) ==> Rank(q) <= Rank(p))
  {
  }

  /** A restart can leave the process in a phase the guard refuses: with one row
      renamed in new_only while its old guest_name was still there and another
      created in new_only, no phase is accepted. */
  lemma NoPhaseFits(schema: Schema, rows: Table, renamed: int, created: int)
    requires schema.guestPresent && schema.newPresent
    requires renamed in rows && NameMismatch(rows[renamed].names)
    requires created in rows && rows[created].names.guest.None?
    ensures forall p :: !Accepts(p, StateOf(schema, rows))
  {
    assert renamed in Mismatched(rows) && created in Missing(rows);
    SomePhaseFits(schema, rows);
  }
}
