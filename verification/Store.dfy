/** The reservations table as the migration sees it: the three name columns of
    every row, the row's version, and which columns the schema has. */
module Store {
  import opened Names

  datatype Option<+T> = None | Some(value: T)

  datatype Column = GuestName | FirstName | LastName

  /** None is SQL NULL, and also stands for a column the schema does not have. */
  datatype NameCols = NameCols(guest: Option<string>, first: Option<string>, last: Option<string>)

  /** `version` is xmin: every write gives the row a value never used before. */
  datatype Row = Row(names: NameCols, version: nat)

  datatype Schema = Schema(
    guestPresent: bool, guestNullable: bool,
    newPresent: bool, firstNotNull: bool, lastNotNull: bool,
    backfillIndex: bool)

  type Table = map<int, Row>

  predicate Has(schema: Schema, c: Column) {
    match c
    case GuestName => schema.guestPresent
    case FirstName => schema.newPresent
    case LastName => schema.newPresent
  }

  /** A row without this column would be refused. */
  predicate Mandatory(schema: Schema, c: Column) {
    match c
    case GuestName => schema.guestPresent && !schema.guestNullable
    case FirstName => schema.newPresent && schema.firstNotNull
    case LastName => schema.newPresent && schema.lastNotNull
  }

  function Cell(n: NameCols, c: Column): Option<string> {
    match c
    case GuestName => n.guest
    case FirstName => n.first
    case LastName => n.last
  }

  function SetCell(n: NameCols, c: Column, v: string): NameCols {
    match c
    case GuestName => n.(guest := Some(v))
    case FirstName => n.(first := Some(v))
    case LastName => n.(last := Some(v))
  }

  const NoNames := NameCols(None, None, None)

  /** Both new columns are filled, with exactly these parts. */
  predicate Filled(n: NameCols, p: Parts) {
    n.first == Some(p.first) && n.last == Some(p.last)
  }

  /** The new columns are both NULL, or the split of the row's guest_name. */
  predicate Agrees(n: NameCols) {
    (n.first.None? && n.last.None?) || Filled(n, SplitGuestName(OrEmpty(n.guest)))
  }

  predicate Together(n: NameCols) {
    n.first.None? <==> n.last.None?
  }

  function OrEmpty(v: Option<string>): string {
    match v
    case None => ""
    case Some(s) => s
  }

  /** `concat_ws(' ', first, last)`: NULLs are left out, empty strings are not. */
  function ConcatWs(first: Option<string>, last: Option<string>): string {
    if first.Some? && last.Some? then first.value + " " + last.value
    else OrEmpty(first) + OrEmpty(last)
  }

  /** `btrim(concat_ws(' ', first_name, last_name))` on a row. */
  function RebuiltName(n: NameCols): string {
    Trim(Blank, ConcatWs(n.first, n.last))
  }

  /** `name_mismatch()` on a row. */
  predicate NameMismatch(n: NameCols) {
    n.first.Some? && n.guest.Some? && RebuiltName(n) != Legacy(n.guest.value)
  }

  /** How the service shows the two new columns of a row. */
  function ShownName(n: NameCols): string {
    Shown(Parts(OrEmpty(n.first), OrEmpty(n.last)))
  }

  function Awaiting(rows: Table): set<int> {
    set id | id in rows && rows[id].names.first.None?
  }

  function Missing(rows: Table): set<int> {
    set id | id in rows && rows[id].names.guest.None?
  }

  function Mismatched(rows: Table): set<int> {
    set id | id in rows && NameMismatch(rows[id].names)
  }

  lemma NoneIsZero(ids: set<int>)
    ensures ids == {} <==> |ids| == 0
  {
  }

  // ---- What the revisions do to the rows ----

  const NAME_LIMIT := 120

  /** DROP COLUMN leaves the row and its version alone. */
  function DropGuest(r: Row): Row {
    r.(names := r.names.(guest := None))
  }

  function DropNewColumns(r: Row): Row {
    r.(names := r.names.(first := None, last := None))
  }

  /** UPDATE ... SET guest_name = rebuilt: the row gets a new version. */
  function WithRebuilt(r: Row, version: nat): Row {
    Row(r.names.(guest := Some(RebuiltName(r.names))), version)
  }

  function FillMissing(rows: Table, version: nat): Table {
    map id | id in rows :: if rows[id].names.guest.None? then WithRebuilt(rows[id], version) else rows[id]
  }

  function RebuildAll(rows: Table, version: nat): Table {
    map id | id in rows :: WithRebuilt(rows[id], version)
  }

  predicate TooLong(rows: Table, ids: set<int>) {
    exists id :: id in ids && id in rows && |RebuiltName(rows[id].names)| > NAME_LIMIT
  }
}
