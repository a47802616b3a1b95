/** The live migration as a step system.

    Requests, the backfill, the administrator and the schema revisions take turns;
    a request gives up its turn wherever the service awaits the database.  An
    UPDATE and its COMMIT are one step: between them the request holds the row's
    lock, which the backfill passes over, and `Lock` below may pass over any row.

    A phase change takes three turns of a PUT: it looks at the schema and counts the
    rows awaiting the backfill, later it counts the others and lets the target in or
    not, later still it switches.  From its first count to its last it holds the lock
    of a reader on the table, so no revision comes in between.  Any number of PUTs may
    be under way.  A restart loses the phase, the requests and the PUTs.

    Four fields are history: nothing the system does depends on them.
    `last` is the last committed name of every reservation, `retired` says that
    new_only has been entered and guest_name has not been current since, and a fetched
    row carries the name it had at that moment (`seen`) and whether the query named the
    columns the phase read then (`aligned`). */
module Protocol {
  import opened Names
  import opened Store
  import opened Migration
  import Etag

  /** GET, or PATCH/DELETE.  `other` says whether a field other than the name changes. */
  datatype Goal =
    | Show
    | Edit(name: Option<string>, other: bool, ifMatch: Option<string>, required: bool)

  datatype Reply =
    | Shown(id: int, cols: seq<Column>, text: string, seen: string, version: nat, aligned: bool)
    | NotFound          // 404
    | Precondition      // 412 or 428
    | Stale             // 409, the version check of the UPDATE
    | Refused           // 400 or 409, the booking constraints
    | NotLoaded         // 500, the response needs a column that was not loaded
    | NullName(aligned: bool)  // 500, the response has no name
    | Broken            // a statement named a column that is not there, or left a mandatory one out

  datatype Request =
    | Accepted(goal: Goal, id: int)
    | Querying(goal: Goal, id: int, cols: seq<Column>)
    | Fetched(goal: Goal, id: int, cols: seq<Column>, names: NameCols, version: nat, seen: string, aligned: bool)
    | Updating(id: int, name: Option<string>, cols: seq<Column>, version: nat)
    | Inserting(guest: string, cols: seq<Column>)
    | Committed(id: int)
    | Answered(reply: Reply)

  /** PUT /admin/migration under way; `awaiting` is its first count. */
  datatype Put =
    | Counting(target: Phase, awaiting: Option<nat>)
    | Allowed(target: Phase)

  datatype Sys = Sys(
    schema: Schema, rows: Table, clock: nat,
    phase: Phase, puts: map<nat, Put>,
    reqs: map<nat, Request>,
    batch: map<int, Parts>,
    last: map<int, string>, retired: bool)

  datatype Step =
    | Arrive(r: nat, goal: Goal, id: int)
    | Book(r: nat, name: string)
    | Query(r: nat)
    | Fetch(r: nat)
    | Resume(r: nat)
    | Commit(r: nat, newId: int)
    | Refuse(r: nat)
    | Count(k: nat, target: Phase)
    | Check(k: nat)
    | Enter(k: nat)
    | Restart(configured: Phase)
    | Lock(ids: set<int>)
    | Fill
    | Abandon
    | Upgrade0002
    | Upgrade0003
    | FirstNotNull
    | LastNotNull
    | DropGuestName
    | Downgrade0004
    | Downgrade0003
    | Downgrade0002

  // ---- Name columns ----

  function ValueFor(name: string, c: Column): string {
    match c
    case GuestName => name
    case FirstName => SplitGuestName(name).first
    case LastName => SplitGuestName(name).last
  }

  /** `write_name`: the row's name columns after setting the given ones. */
  function WriteName(n: NameCols, cols: seq<Column>, name: string): NameCols {
    NameCols(
      if GuestName in cols then Some(name) else n.guest,
      if FirstName in cols then Some(SplitGuestName(name).first) else n.first,
      if LastName in cols then Some(SplitGuestName(name).last) else n.last)
  }

  /** An attribute that was not loaded, or gets another value, makes an UPDATE. */
  predicate NetChange(loaded: seq<Column>, n: NameCols, cols: seq<Column>, name: string) {
    exists c :: c in cols && (c !in loaded || Cell(n, c) != Some(ValueFor(name, c)))
  }

  predicate AllPresent(schema: Schema, cols: seq<Column>) {
    && (GuestName in cols ==> Has(schema, GuestName))
    && (FirstName in cols ==> Has(schema, FirstName))
    && (LastName in cols ==> Has(schema, LastName))
  }

  predicate CoversMandatory(schema: Schema, cols: seq<Column>) {
    && (Mandatory(schema, GuestName) ==> GuestName in cols)
    && (Mandatory(schema, FirstName) ==> FirstName in cols)
    && (Mandatory(schema, LastName) ==> LastName in cols)
  }

  // ---- Steps ----

  function Set(s: Sys, r: nat, q: Request): Sys {
    s.(reqs := s.reqs[r := q])
  }

  /** What requests and batches never change. */
  predicate SameSetting(s: Sys, t: Sys) {
    t.schema == s.schema && t.phase == s.phase && t.puts == s.puts && t.retired == s.retired
  }

  /** The query names the columns of the phase at this moment. */
  function Queried(q: Request, phase: Phase): Request
    requires q.Accepted? || q.Committed?
  {
    Querying(if q.Accepted? then q.goal else Show, q.id, ReadColumns(phase))
  }

  function DoQuery(s: Sys, r: nat): (t: Sys)
    requires r in s.reqs && (s.reqs[r].Accepted? || s.reqs[r].Committed?)
    ensures SameSetting(s, t)
  {
    Set(s, r, Queried(s.reqs[r], s.phase))
  }

  /** What the query finds. */
  function Found(s: Sys, q: Request): Request
    requires q.Querying?
  {
    if !AllPresent(s.schema, q.cols) then Answered(Broken)
    else if q.id !in s.rows then Answered(NotFound)
    else Fetched(q.goal, q.id, q.cols, s.rows[q.id].names, s.rows[q.id].version,
                 if q.id in s.last then s.last[q.id] else "", q.cols == ReadColumns(s.phase))
  }

  function DoFetch(s: Sys, r: nat): (t: Sys)
    requires r in s.reqs && s.reqs[r].Querying?
    ensures SameSetting(s, t)
  {
    Set(s, r, Found(s, s.reqs[r]))
  }

  /** `_fields`: the response reads the columns of the current phase. */
  function Render(phase: Phase, id: int, cols: seq<Column>, n: NameCols, version: nat, seen: string,
    aligned: bool): Reply {
    if cols != ReadColumns(phase) then NotLoaded
    else if GuestName in cols then
      if n.guest.None? then NullName(aligned) else Shown(id, cols, n.guest.value, seen, version, aligned)
    else Shown(id, cols, ShownName(n), seen, version, aligned)
  }

  /** What a request does once its row has arrived: answer, or prepare its UPDATE
      with the columns the phase writes at this moment. */
  function Resumed(q: Request, phase: Phase): Request
    requires q.Fetched?
  {
    match q.goal
    case Show => Answered(Render(phase, q.id, q.cols, q.names, q.version, q.seen, q.aligned))
    case Edit(name, other, ifMatch, required) =>
      if Etag.CheckIfMatch(ifMatch, q.version, required) != Etag.Pass then Answered(Precondition)
      else if name.Some? && NetChange(q.cols, q.names, WriteColumns(phase), name.value) then
        Updating(q.id, name, WriteColumns(phase), q.version)
      else if other then Updating(q.id, None, [], q.version)
      else Committed(q.id)
  }

  function DoResume(s: Sys, r: nat): Sys
    requires r in s.reqs && s.reqs[r].Fetched?
  {
    Set(s, r, Resumed(s.reqs[r], s.phase))
  }

  function CommitUpdate(s: Sys, r: nat, id: int, name: Option<string>, cols: seq<Column>, version: nat): Sys {
    if !AllPresent(s.schema, cols) then Set(s, r, Answered(Broken))
    else if id !in s.rows || s.rows[id].version != version then Set(s, r, Answered(Stale))
    else
      var n := if name.Some? then WriteName(s.rows[id].names, cols, name.value) else s.rows[id].names;
      Set(s, r, Committed(id)).(
        rows := s.rows[id := Row(n, s.clock)],
        clock := s.clock + 1,
        last := if name.Some? then s.last[id := name.value] else s.last)
  }

  function CommitInsert(s: Sys, r: nat, name: string, cols: seq<Column>, newId: int): Sys {
    if !AllPresent(s.schema, cols) || !CoversMandatory(s.schema, cols) then Set(s, r, Answered(Broken))
    else
      Set(s, r, Committed(newId)).(
        rows := s.rows[newId := Row(WriteName(NoNames, cols, name), s.clock)],
        clock := s.clock + 1,
        last := s.last[newId := name])
  }

  function DoCommit(s: Sys, r: nat, newId: int): (t: Sys)
    requires r in s.reqs && (s.reqs[r].Updating? || s.reqs[r].Inserting?)
    ensures SameSetting(s, t)
  {
    var q := s.reqs[r];
    if q.Updating? then CommitUpdate(s, r, q.id, q.name, q.cols, q.version)
    else CommitInsert(s, r, q.guest, q.cols, newId)
  }

  /** The rows a batch may take: still NULL, behind the cursor or not, locked by
      somebody else or not. */
  predicate Lockable(s: Sys, ids: set<int>) {
    forall id :: id in ids ==> id in s.rows && s.rows[id].names.first.None?
  }

  function DoLock(s: Sys, ids: set<int>): Sys
    requires Lockable(s, ids)
  {
    s.(batch := map id | id in ids :: SplitGuestName(OrEmpty(s.rows[id].names.guest)))
  }

  /** FILL: only a row whose first_name is still NULL. */
  function FillRow(row: Row, p: Parts, version: nat): Row {
    if row.names.first.None?
    then Row(row.names.(first := Some(p.first), last := Some(p.last)), version)
    else row
  }

  function DoFill(s: Sys): Sys {
    s.(rows := map id | id in s.rows :: if id in s.batch then FillRow(s.rows[id], s.batch[id], s.clock) else s.rows[id],
       clock := s.clock + 1,
       batch := map[])
  }

  function SeenBy(s: Sys, put: Put): SchemaState
    requires put.Counting?
  {
    StateOf(s.schema, s.rows).(awaiting := put.awaiting)
  }

  function DoCheck(s: Sys, k: nat): Sys
    requires k in s.puts && s.puts[k].Counting?
  {
    var target := s.puts[k].target;
    s.(puts := if Accepts(target, SeenBy(s, s.puts[k])) then s.puts[k := Allowed(target)] else s.puts - {k})
  }

  predicate SetsName(q: Request) {
    q.Inserting? || (q.Updating? && q.name.Some?)
  }

  /** Every guest_name is the booking's last name, and every name on its way goes there too. */
  predicate GuestIsCurrent(s: Sys) {
    && s.schema.guestPresent
    && (forall id :: id in s.rows && id in s.last ==> s.rows[id].names.guest == Some(s.last[id]))
    && (forall r :: r in s.reqs && SetsName(s.reqs[r]) ==> GuestName in s.reqs[r].cols)
  }

  function InPhase(s: Sys, phase: Phase): Sys {
    s.(phase := phase, retired := phase == NewOnly || (s.retired && !GuestIsCurrent(s)))
  }

  function DoEnter(s: Sys, k: nat): Sys
    requires k in s.puts && s.puts[k].Allowed?
  {
    InPhase(s.(puts := s.puts - {k}), s.puts[k].target)
  }

  /** The process comes up in the configured phase and reconciles it with the schema. */
  function DoRestart(s: Sys, configured: Phase): Sys {
    InPhase(s.(puts := map[], reqs := map[]), Reconciled(configured, StateOf(s.schema, s.rows)))
  }

  /** What a schema step does to the columns. */
  function Altered(schema: Schema, step: Step): Schema {
    match step
    case Upgrade0002 => schema.(newPresent := true, firstNotNull := false, lastNotNull := false, backfillIndex := true)
    case Upgrade0003 => schema.(guestNullable := true)
    case FirstNotNull => schema.(firstNotNull := true)
    case LastNotNull => schema.(lastNotNull := true)
    case DropGuestName => schema.(guestPresent := false, guestNullable := false, backfillIndex := false)
    case Downgrade0004 => Schema(true, true, true, false, false, true)
    case Downgrade0003 => schema.(guestNullable := false)
    case Downgrade0002 =>
      schema.(newPresent := false, firstNotNull := false, lastNotNull := false, backfillIndex := false)
    case _ => schema
  }

  function DoDropGuest(s: Sys): Sys {
    s.(schema := Altered(s.schema, DropGuestName),
       rows := map id | id in s.rows :: DropGuest(s.rows[id]))
  }

  function DoDowngrade0004(s: Sys): Sys {
    s.(schema := Altered(s.schema, Downgrade0004), rows := RebuildAll(s.rows, s.clock), clock := s.clock + 1)
  }

  function DoDowngrade0003(s: Sys): Sys {
    s.(schema := Altered(s.schema, Downgrade0003), rows := FillMissing(s.rows, s.clock), clock := s.clock + 1)
  }

  function DoDowngrade0002(s: Sys): Sys {
    s.(schema := Altered(s.schema, Downgrade0002),
       rows := map id | id in s.rows :: DropNewColumns(s.rows[id]))
  }

  predicate NoRowLacks(s: Sys, c: Column) {
    forall id :: id in s.rows ==> Cell(s.rows[id].names, c).Some?
  }

  /** No batch holds rows and no PUT is counting, so the table can be altered. */
  predicate Unlocked(s: Sys) {
    s.batch == map[] && forall k :: k in s.puts ==> s.puts[k].Allowed?
  }

  predicate Enabled(s: Sys, step: Step) {
    match step
    case Arrive(r, goal, id) => r !in s.reqs
    case Book(r, name) => r !in s.reqs
    case Query(r) => r in s.reqs && (s.reqs[r].Accepted? || s.reqs[r].Committed?)
    case Fetch(r) => r in s.reqs && s.reqs[r].Querying?
    case Resume(r) => r in s.reqs && s.reqs[r].Fetched?
    case Commit(r, newId) => r in s.reqs && (
      || (s.reqs[r].Updating? && s.reqs[r].id !in s.batch)
      || (s.reqs[r].Inserting? && newId !in s.rows))
    case Refuse(r) => r in s.reqs && s.reqs[r].Inserting?
    case Count(k, target) => k !in s.puts
    case Check(k) => k in s.puts && s.puts[k].Counting?
    case Enter(k) => k in s.puts && s.puts[k].Allowed?
    case Restart(configured) => true
    case Lock(ids) => s.batch == map[] && s.schema.newPresent && s.schema.guestPresent && Lockable(s, ids)
    case Fill => s.schema.newPresent
    case Abandon => true
    case Upgrade0002 => Unlocked(s) && !s.schema.newPresent
    case Upgrade0003 => Unlocked(s) && s.schema.newPresent && s.schema.guestPresent && !s.schema.guestNullable
    case FirstNotNull => s.schema.newPresent && s.schema.guestPresent && s.schema.guestNullable
      && NoRowLacks(s, FirstName)
    case LastNotNull => s.schema.firstNotNull && NoRowLacks(s, LastName)
    case DropGuestName => Unlocked(s) && s.schema.firstNotNull && s.schema.lastNotNull && s.schema.guestPresent
    case Downgrade0004 => Unlocked(s) && !s.schema.guestPresent && !TooLong(s.rows, s.rows.Keys)
    case Downgrade0003 =>
      && Unlocked(s) && s.schema.newPresent && s.schema.guestPresent && s.schema.guestNullable
      && !TooLong(s.rows, Missing(s.rows))
    case Downgrade0002 => Unlocked(s) && s.schema.newPresent && s.schema.guestPresent && !s.schema.guestNullable
  }

  function Apply(s: Sys, step: Step): Sys
    requires Enabled(s, step)
  {
    match step
    case Arrive(r, goal, id) => Set(s, r, Accepted(goal, id))
    case Book(r, name) => Set(s, r, Inserting(name, WriteColumns(s.phase)))
    case Query(r) => DoQuery(s, r)
    case Fetch(r) => DoFetch(s, r)
    case Resume(r) => DoResume(s, r)
    case Commit(r, newId) => DoCommit(s, r, newId)
    case Refuse(r) => Set(s, r, Answered(Refused))
    case Count(k, target) =>
      s.(puts := s.puts[k := Counting(target, StateOf(s.schema, s.rows).awaiting)])
    case Check(k) => DoCheck(s, k)
    case Enter(k) => DoEnter(s, k)
    case Restart(configured) => DoRestart(s, configured)
    case Lock(ids) => DoLock(s, ids)
    case Fill => DoFill(s)
    case Abandon => s.(batch := map[])
    case Upgrade0002 => s.(schema := Altered(s.schema, step))
    case Upgrade0003 => s.(schema := Altered(s.schema, step))
    case FirstNotNull => s.(schema := Altered(s.schema, step))
    case LastNotNull => s.(schema := Altered(s.schema, step))
    case DropGuestName => DoDropGuest(s)
    case Downgrade0004 => DoDowngrade0004(s)
    case Downgrade0003 => DoDowngrade0003(s)
    case Downgrade0002 => DoDowngrade0002(s)
  }

  // ---- Runs ----

  /** Revision 0001, phase legacy, no request in flight. */
  predicate Init(s: Sys) {
    && s.schema == Schema(true, false, false, false, false, false)
    && s.phase == LegacyPhase && s.puts == map[] && s.reqs == map[] && s.batch == map[] && !s.retired
    && s.rows.Keys == s.last.Keys
    && forall id :: id in s.rows ==>
         s.rows[id].names == NameCols(Some(s.last[id]), None, None) && s.rows[id].version < s.clock
  }

  predicate Run(s: Sys, steps: seq<Step>)
    decreases |steps|
  {
    steps == [] || (Enabled(s, steps[0]) && Run(Apply(s, steps[0]), steps[1..]))
  }

  function After(s: Sys, steps: seq<Step>): Sys
    requires Run(s, steps)
    decreases |steps|
  {
    if steps == [] then s else After(Apply(s, steps[0]), steps[1..])
  }

  lemma {:induction false} RunInTwo(s: Sys, a: seq<Step>, b: seq<Step>)
    ensures Run(s, a + b) <==> Run(s, a) && Run(After(s, a), b)
    ensures Run(s, a + b) ==> After(s, a + b) == After(After(s, a), b)
    decreases |a|
  {
    hide Enabled, Apply;
    if a == [] {
      assert a + b == b;
    } else {
      assert (a + b)[1..] == a[1..] + b;
      if Enabled(s, a[0]) { RunInTwo(Apply(s, a[0]), a[1..], b); }
    }
  }
}
