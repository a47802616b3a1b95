/** Names survive the migration, in every run and every interleaving. */
module Fidelity {
  import opened Names
  import opened NameLaws
  import opened Store
  import opened Migration
  import opened Protocol
  import opened Phases
  import Etag

  // ---- What the administrator has been told ----

  /** The new columns are read, or a PUT may still make them so. */
  predicate Trusted(s: Sys) {
    May(s, ReadNew) || May(s, NewOnly)
  }

  predicate FoundNone(put: Put) {
    put.Counting? && ReadsNew(put.target) && put.awaiting == Some(0)
  }

  /** The same, or a PUT for such a phase has found no row awaiting and goes on counting. */
  predicate Complete(s: Sys) {
    Trusted(s) || exists k :: k in s.puts && FoundNone(s.puts[k])
  }

  // ---- How the migration has to be driven ----

  /** No name on its way misses this column. */
  predicate EveryNameSets(s: Sys, c: Column) {
    forall r :: r in s.reqs && SetsName(s.reqs[r]) ==> c in s.reqs[r].cols
  }

  /** Every booking on its way sets this column. */
  predicate EveryBookingSets(s: Sys, c: Column) {
    forall r :: r in s.reqs && s.reqs[r].Inserting? ==> c in s.reqs[r].cols
  }

  predicate NamesColumn(q: Request, c: Column) {
    (q.Querying? || q.Updating? || q.Inserting?) && c in q.cols
  }

  /** No statement on its way names this column. */
  predicate NobodyNames(s: Sys, c: Column) {
    forall r :: r in s.reqs ==> !NamesColumn(s.reqs[r], c)
  }

  /** The cut of the stored last name fell right behind a blank. */
  predicate Overhangs(n: NameCols) {
    n.last.Some? && n.last.value != "" && n.last.value[|n.last.value| - 1] == ' '
  }

  /** A rename that leaves the new columns as they are. */
  predicate OldOnly(q: Request) {
    q.Updating? && q.name.Some? && FirstName !in q.cols
  }

  /** Once the new columns may be read they are written; and while some guest_name is not
      current, guest_name is not read. */
  predicate Settles(t: Sys) {
    (Complete(t) ==> WritesNew(t.phase)) && (t.retired ==> ReadsNew(t.phase))
  }

  /** What nothing enforces.  Beside the order of phases and revisions: a PUT for a phase that
      reads the new columns starts counting while they are written, with no name on its way that
      misses them; a switch or a restart settles; a column is made mandatory, or dropped, when no
      statement on its way minds; and a rename in legacy does not touch a row whose last_name
      ends in the blank it was cut behind. */
  predicate Disciplined(s: Sys, step: Step) {
    Ordered(s, step) &&
    match step
    case Count(k, target) => ReadsNew(target) ==> WritesNew(s.phase) && EveryNameSets(s, FirstName)
    case Enter(k) => k in s.puts && s.puts[k].Allowed? ==> Settles(DoEnter(s, k))
    case Restart(configured) => Settles(DoRestart(s, configured))
    case Commit(r, newId) =>
      r in s.reqs && OldOnly(s.reqs[r]) && s.reqs[r].id in s.rows ==> !Overhangs(s.rows[s.reqs[r].id].names)
    case FirstNotNull => EveryBookingSets(s, FirstName)
    case LastNotNull => EveryBookingSets(s, LastName)
    case DropGuestName => NobodyNames(s, GuestName)
    case Downgrade0003 => EveryBookingSets(s, GuestName)
    case Downgrade0002 => NobodyNames(s, FirstName) && NobodyNames(s, LastName)
    case _ => true
  }

  predicate DisciplinedRun(s: Sys, steps: seq<Step>)
    decreases |steps|
  {
    steps == [] ||
    (Enabled(s, steps[0]) && Disciplined(s, steps[0]) && DisciplinedRun(Apply(s, steps[0]), steps[1..]))
  }

  // ---- The invariant ----

  /** What a response shows of a name, by the columns it reads. */
  function View(cols: seq<Column>, name: string): string {
    if GuestName in cols then name else Names.Shown(SplitGuestName(name))
  }

  predicate Reading(cols: seq<Column>) {
    cols == [GuestName] || cols == [FirstName, LastName]
  }

  predicate Content(cols: seq<Column>, n: NameCols, name: string) {
    if GuestName in cols then n.guest == Some(name) else Filled(n, SplitGuestName(name))
  }

  /** Never broken, and when query and response read the same columns, exactly
      the view of the name that was last committed when the row was read. */
  predicate FaithfulReply(reply: Reply) {
    match reply
    case Broken => false
    case NullName(aligned) => !aligned
    case Shown(id, cols, text, seen, version, aligned) => aligned ==> text == View(cols, seen)
    case _ => true
  }

  /** What the checks of rows and requests depend on. */
  datatype Setting = Setting(schema: Schema, clock: nat, retired: bool, complete: bool, trusted: bool)

  function Of(s: Sys): Setting {
    Setting(s.schema, s.clock, s.retired, Complete(s), Trusted(s))
  }

  predicate WriteOk(cols: seq<Column>, e: Setting) {
    && AllPresent(e.schema, cols)
    && (FirstName in cols <==> LastName in cols)
    && (!e.retired ==> GuestName in cols)
    && (e.complete ==> FirstName in cols)
  }

  predicate RequestOk(q: Request, e: Setting) {
    match q
    case Accepted(goal, id) => true
    case Querying(goal, id, cols) => Reading(cols) && AllPresent(e.schema, cols)
    case Fetched(goal, id, cols, n, version, seen, aligned) =>
      Reading(cols) && version < e.clock && (aligned ==> Content(cols, n, seen))
    case Updating(id, name, cols, version) =>
      version < e.clock && if name.Some? then WriteOk(cols, e) else cols == []
    case Inserting(name, cols) => WriteOk(cols, e) && CoversMandatory(e.schema, cols)
    case Committed(id) => true
    case Answered(reply) => FaithfulReply(reply)
  }

  /** The new columns are the split of the name, or of an older one that was settled. */
  predicate SplitOrShaped(n: NameCols, name: string) {
    n.first.Some? && n.last.Some? ==>
      Filled(n, SplitGuestName(name)) || Shaped(Parts(n.first.value, n.last.value))
  }

  predicate RowOk(row: Row, name: string, e: Setting) {
    && row.version < e.clock
    && Together(row.names)
    && (row.names.first.Some? ==> e.schema.newPresent)
    && SplitOrShaped(row.names, name)
    && (!e.retired ==> row.names.guest == Some(name))
    && (e.complete ==> row.names.first.Some?)
    && (e.trusted ==> Filled(row.names, SplitGuestName(name)))
  }

  predicate PhaseOk(s: Sys) {
    && Settles(s)
    && (s.phase == NewOnly ==> s.retired)
    && (!s.retired ==> s.schema.guestPresent)
    && (forall k :: k in s.puts && s.puts[k].Counting? ==> s.puts[k].awaiting.Some? == s.schema.newPresent)
  }

  predicate RowsOk(s: Sys) {
    s.rows.Keys == s.last.Keys && forall id :: id in s.rows ==> RowOk(s.rows[id], s.last[id], Of(s))
  }

  predicate RequestsOk(s: Sys) {
    forall r :: r in s.reqs ==> RequestOk(s.reqs[r], Of(s))
  }

  predicate BatchOk(s: Sys) {
    && Lockable(s, s.batch.Keys)
    && forall id :: id in s.batch ==> s.batch[id] == SplitGuestName(OrEmpty(s.rows[id].names.guest))
  }

  predicate Kept(s: Sys) {
    PhaseOk(s) && RowsOk(s) && RequestsOk(s) && BatchOk(s)
  }

  ghost predicate Inv(s: Sys) {
    PhasesFit(s) && Kept(s)
  }

  // ---- When a setting changes ----

  /** What a request needs of a change of its setting. */
  predicate Bears(q: Request, now: Setting, next: Setting) {
    && now.clock <= next.clock
    && (NamesColumn(q, GuestName) && now.schema.guestPresent ==> next.schema.guestPresent)
    && (NamesColumn(q, FirstName) || NamesColumn(q, LastName) ==> now.schema.newPresent ==> next.schema.newPresent)
    && (SetsName(q) && now.retired && !next.retired ==> GuestName in q.cols)
    && (SetsName(q) && next.complete && !now.complete ==> FirstName in q.cols)
    && (q.Inserting? ==> CoversMandatory(now.schema, q.cols) ==> CoversMandatory(next.schema, q.cols))
  }

  lemma RequestStays(q: Request, now: Setting, next: Setting)
    requires RequestOk(q, now) && Bears(q, now, next)
    ensures RequestOk(q, next)
  {
  }

  /** What a row needs. */
  predicate Holds(row: Row, name: string, now: Setting, next: Setting) {
    && now.clock <= next.clock
    && (row.names.first.Some? ==> next.schema.newPresent)
    && (now.retired && !next.retired ==> row.names.guest == Some(name))
    && (next.complete && !now.complete ==> row.names.first.Some?)
    && (next.trusted && !now.trusted ==> Filled(row.names, SplitGuestName(name)))
  }

  lemma RowStays(row: Row, name: string, now: Setting, next: Setting)
    requires RowOk(row, name, now) && Holds(row, name, now, next)
    ensures RowOk(row, name, next)
  {
  }

  /** With the same names and requests, it is enough that each bears the change. */
  lemma SettingChanges(s: Sys, t: Sys)
    requires Kept(s) && t.rows == s.rows && t.last == s.last && t.batch == s.batch && PhaseOk(t)
    requires forall r :: r in t.reqs ==> r in s.reqs && t.reqs[r] == s.reqs[r] && Bears(s.reqs[r], Of(s), Of(t))
    requires forall id :: id in s.rows && id in s.last ==> Holds(s.rows[id], s.last[id], Of(s), Of(t))
    ensures Kept(t)
  {
    hide SplitGuestName, RowOk, RequestOk, Bears, Holds, Of, PhaseOk;
    forall r | r in t.reqs ensures RequestOk(t.reqs[r], Of(t)) { RequestStays(s.reqs[r], Of(s), Of(t)); }
    forall id | id in t.rows ensures RowOk(t.rows[id], t.last[id], Of(t)) {
      RowStays(s.rows[id], s.last[id], Of(s), Of(t));
    }
  }

  // ---- Requests ----

  lemma SetKeeps(s: Sys, r: nat, q: Request)
    requires Kept(s) && RequestOk(q, Of(s))
    ensures Kept(Set(s, r, q))
  {
    hide RequestOk, RowOk, SplitGuestName, Settles;
    assert Of(Set(s, r, q)) == Of(s);
    assert Settles(Set(s, r, q)) == Settles(s) by { SameSettles(s, Set(s, r, q)); }
    hide Of;
  }

  lemma SameSettles(s: Sys, t: Sys)
    requires SameSetting(s, t)
    ensures Settles(t) == Settles(s) && Complete(t) == Complete(s) && Trusted(t) == Trusted(s)
  {
  }

  lemma PhaseWrites(s: Sys)
    requires Inv(s)
    ensures WriteOk(WriteColumns(s.phase), Of(s)) && CoversMandatory(s.schema, WriteColumns(s.phase))
    ensures Reading(ReadColumns(s.phase)) && AllPresent(s.schema, ReadColumns(s.phase))
  {
    hide RowsOk, RequestsOk, BatchOk, Complete, Trusted;
    assert May(s, s.phase) && PhaseFits(s.phase, s.schema);
    hide PhasesFit, May;
  }

  lemma BookKeeps(s: Sys, r: nat, name: string)
    requires Inv(s)
    ensures Kept(Set(s, r, Inserting(name, WriteColumns(s.phase))))
  {
    PhaseWrites(s);
    hide Kept, WriteOk, CoversMandatory, WriteColumns, ReadColumns, Of;
    SetKeeps(s, r, Inserting(name, WriteColumns(s.phase)));
  }

  lemma QueryKeeps(s: Sys, r: nat)
    requires Inv(s) && Enabled(s, Query(r))
    ensures Kept(DoQuery(s, r))
  {
    PhaseWrites(s);
    hide Kept, AllPresent, Reading, ReadColumns, WriteColumns, Of;
    SetKeeps(s, r, Queried(s.reqs[r], s.phase));
  }

  /** What a query in step with the phase reads is the last committed name. */
  lemma FetchedContent(s: Sys, id: int)
    requires Kept(s) && id in s.rows
    ensures id in s.last && Content(ReadColumns(s.phase), s.rows[id].names, s.last[id])
    ensures s.rows[id].version < s.clock
  {
  }

  lemma FetchKeeps(s: Sys, r: nat)
    requires Kept(s) && Enabled(s, Fetch(r))
    ensures Kept(DoFetch(s, r))
  {
    OneRequest(s, r);
    if s.reqs[r].id in s.rows { FetchedContent(s, s.reqs[r].id); }
    hide SplitGuestName, Kept, AllPresent, Reading, Content, ReadColumns, Complete, Trusted;
    SetKeeps(s, r, Found(s, s.reqs[r]));
  }

  lemma OneRequest(s: Sys, r: nat)
    requires Kept(s) && r in s.reqs
    ensures RequestOk(s.reqs[r], Of(s))
  {
  }

  lemma ResumeKeeps(s: Sys, r: nat)
    requires Inv(s) && Enabled(s, Resume(r))
    ensures Kept(DoResume(s, r))
  {
    PhaseWrites(s);
    OneRequest(s, r);
    hide Kept, Resumed, RequestOk, WriteOk, WriteColumns, ReadColumns, Of;
    SetKeeps(s, r, Resumed(s.reqs[r], s.phase));
  }

  // ---- Commits ----

  /** A row and its history entry change together, the clock moves on. */
  function WithRow(s: Sys, id: int, row: Row, name: string): Sys {
    s.(rows := s.rows[id := row], clock := s.clock + 1, last := s.last[id := name])
  }

  lemma WithRowKeeps(s: Sys, id: int, row: Row, name: string)
    requires Kept(s) && id !in s.batch && RowOk(row, name, Of(s).(clock := s.clock + 1))
    ensures Kept(WithRow(s, id, row, name))
  {
    hide SplitGuestName, RowOk, RequestOk, Settles;
    var t := WithRow(s, id, row, name);
    assert Of(t) == Of(s).(clock := s.clock + 1) && Settles(t) == Settles(s) by { SameSettles(s, t); }
    hide Of;
    forall i | i in t.rows ensures RowOk(t.rows[i], t.last[i], Of(t)) {
      if i != id { RowLater(s, s.rows[i], s.last[i]); }
    }
    forall r | r in t.reqs ensures RequestOk(t.reqs[r], Of(t)) { RequestStays(s.reqs[r], Of(s), Of(t)); }
    forall i | i in t.batch ensures t.rows[i] == s.rows[i] {}
  }

  lemma RowLater(s: Sys, row: Row, name: string)
    requires RowOk(row, name, Of(s))
    ensures RowOk(row, name, Of(s).(clock := s.clock + 1))
  {
  }

  lemma WrittenRowOk(n: NameCols, was: string, cols: seq<Column>, name: string, e: Setting)
    requires WriteOk(cols, e) && Together(n) && (n.first.Some? ==> e.schema.newPresent) && SplitOrShaped(n, was)
    requires FirstName !in cols ==> !Overhangs(n) && !e.trusted && !e.complete
    ensures RowOk(Row(WriteName(n, cols, name), e.clock), name, e.(clock := e.clock + 1))
  {
    hide SplitGuestName, Shaped;
    SplitIsShaped(was);
  }

  lemma UpdateKeeps(s: Sys, r: nat)
    requires Kept(s) && r in s.reqs && s.reqs[r].Updating? && s.reqs[r].id !in s.batch
    requires OldOnly(s.reqs[r]) && s.reqs[r].id in s.rows ==> !Overhangs(s.rows[s.reqs[r].id].names)
    ensures var q := s.reqs[r]; Kept(CommitUpdate(s, r, q.id, q.name, q.cols, q.version))
  {
    hide SplitGuestName, Shaped, PhaseOk, BatchOk, WriteName, SplitOrShaped;
    var q, e := s.reqs[r], Of(s);
    OneRequest(s, r);
    assert e.trusted ==> e.complete;
    if q.id !in s.rows || s.rows[q.id].version != q.version {
      SetKeeps(s, r, Answered(Stale));
    } else {
      var was := s.rows[q.id];
      var g := if q.name.Some? then q.name.value else s.last[q.id];
      var row := Row(if q.name.Some? then WriteName(was.names, q.cols, g) else was.names, s.clock);
      assert RowOk(was, s.last[q.id], e);
      hide Complete, Trusted;
      if q.name.Some? {
        WrittenRowOk(was.names, s.last[q.id], q.cols, g, e);
      } else {
        assert s.last[q.id := g] == s.last;
      }
      hide RowOk, RequestsOk, RowsOk, Of;
      WithRowKeeps(s, q.id, row, g);
      SetKeeps(WithRow(s, q.id, row, g), r, Committed(q.id));
    }
  }

  lemma InsertKeeps(s: Sys, r: nat, newId: int)
    requires Kept(s) && r in s.reqs && s.reqs[r].Inserting? && newId !in s.rows
    ensures var q := s.reqs[r]; Kept(CommitInsert(s, r, q.guest, q.cols, newId))
  {
    hide SplitGuestName, PhaseOk, WriteName, RowsOk;
    var q := s.reqs[r];
    OneRequest(s, r);
    assert newId !in s.batch;
    hide RequestsOk, BatchOk;
    assert Of(s).trusted ==> Of(s).complete;
    hide Complete, Trusted;
    WrittenRowOk(NoNames, "", q.cols, q.guest, Of(s));
    hide RowOk, CoversMandatory, Of;
    var row := Row(WriteName(NoNames, q.cols, q.guest), s.clock);
    WithRowKeeps(s, newId, row, q.guest);
    SetKeeps(WithRow(s, newId, row, q.guest), r, Committed(newId));
  }

  // ---- The backfill ----

  lemma LockKeeps(s: Sys, ids: set<int>)
    requires Kept(s) && Enabled(s, Lock(ids))
    ensures Kept(DoLock(s, ids))
  {
    hide SplitGuestName, RowOk, RequestOk, Complete, Trusted;
    SameSettles(s, DoLock(s, ids));
    hide Settles;
  }

  lemma AbandonKeeps(s: Sys)
    requires Kept(s)
    ensures Kept(s.(batch := map[]))
  {
  }

  lemma FilledRowOk(row: Row, p: Parts, name: string, e: Setting)
    requires RowOk(row, name, e) && e.schema.newPresent
    requires row.names.first.None? && p == SplitGuestName(OrEmpty(row.names.guest)) && (e.retired ==> e.complete)
    ensures RowOk(FillRow(row, p, e.clock), name, e.(clock := e.clock + 1))
  {
  }

  lemma FillKeeps(s: Sys)
    requires Kept(s) && Enabled(s, Fill)
    ensures Kept(DoFill(s))
  {
    hide SplitGuestName, RequestOk, RowOk, FillRow;
    var t := DoFill(s);
    SameSettles(s, t);
    assert s.retired ==> Complete(s);
    assert Of(t) == Of(s).(clock := s.clock + 1);
    forall id | id in t.rows ensures RowOk(t.rows[id], t.last[id], Of(t)) {
      if id in s.batch {
        FilledRowOk(s.rows[id], s.batch[id], s.last[id], Of(s));
      } else {
        RowLater(s, s.rows[id], s.last[id]);
      }
    }
    forall r | r in t.reqs ensures RequestOk(t.reqs[r], Of(t)) { RequestStays(s.reqs[r], Of(s), Of(t)); }
    hide Of, Complete, Trusted, Settles;
  }

  // ---- PUTs and restarts ----

  /** A row in order by the guard's comparison, whatever name its columns were once split from,
      has the split of its current name exactly when its last_name does not end in the blank it
      was cut behind. */
  lemma GuardMeansSplit(n: NameCols, was: string, name: string)
    requires Filled(n, SplitGuestName(was)) && n.guest == Some(name) && !NameMismatch(n)
    ensures Filled(n, SplitGuestName(name)) <==> !Overhangs(n)
  {
    SplitIsShaped(was);
    hide SplitGuestName, Shaped, SplitShape, Rebuilt, Legacy, RebuiltName;
    var p := SplitGuestName(was);
    RebuiltParts(n, p);
    AgreementMeansSplit(p, name);
    var q := SplitGuestName(name);
    assert p == Parts(p.first, p.last) && q == Parts(q.first, q.last);
  }

  lemma InOrder(n: NameCols, name: string)
    requires SplitOrShaped(n, name) && n.guest == Some(name) && n.first.Some? && n.last.Some? && !NameMismatch(n)
    ensures Filled(n, SplitGuestName(name))
  {
    hide SplitGuestName, Shaped, Rebuilt, Legacy, RebuiltName;
    var p := Parts(n.first.value, n.last.value);
    RebuiltParts(n, p);
    if Shaped(p) {
      assert SplitShape(p) by { ShapedHasShape(p); }
      AgreementMeansSplit(p, name);
    }
  }

  lemma ShapedHasShape(p: Parts)
    requires Shaped(p)
    ensures SplitShape(p)
  {
  }

  lemma RebuiltParts(n: NameCols, p: Parts)
    requires Filled(n, p)
    ensures RebuiltName(n) == Rebuilt(p)
  {
  }

  /** Counts of zero mean what they say. */
  lemma CountsAreZero(target: Phase, schema: Schema, rows: Table, awaiting: Option<nat>)
    requires Accepts(target, StateOf(schema, rows).(awaiting := awaiting)) && ReadsNew(target)
    requires awaiting.Some? == schema.newPresent
    ensures awaiting == Some(0) && (schema.guestPresent ==> forall id :: id in rows ==> !NameMismatch(rows[id].names))
  {
    hide NameMismatch;
    if schema.guestPresent {
      NoneIsZero(Mismatched(rows));
      forall id | id in rows ensures !NameMismatch(rows[id].names) { assert id !in Mismatched(rows); }
    }
  }

  lemma NoneAwaits(schema: Schema, rows: Table)
    requires StateOf(schema, rows).awaiting == Some(0)
    ensures forall id :: id in rows ==> rows[id].names.first.Some?
  {
    hide Mismatched, Missing;
    NoneIsZero(Awaiting(rows));
    forall id | id in rows ensures rows[id].names.first.Some? { assert id !in Awaiting(rows); }
  }

  /** Nothing is trusted that was not, and retired ends only when guest_name is current. */
  lemma Relaxes(s: Sys, t: Sys)
    requires Kept(s) && PhaseOk(t) && t.schema == s.schema && t.clock == s.clock
    requires t.rows == s.rows && t.last == s.last && t.batch == s.batch
    requires forall r :: r in t.reqs ==> r in s.reqs && t.reqs[r] == s.reqs[r]
    requires (Complete(t) ==> Complete(s)) && (Trusted(t) ==> Trusted(s))
    requires s.retired && !t.retired ==> GuestIsCurrent(s)
    ensures Kept(t)
  {
    hide SplitGuestName, RequestOk, SplitOrShaped, PhaseOk, BatchOk, Complete, Trusted;
    forall r | r in t.reqs ensures Bears(s.reqs[r], Of(s), Of(t)) {}
    forall id | id in s.rows && id in s.last ensures Holds(s.rows[id], s.last[id], Of(s), Of(t)) {
      assert RowOk(s.rows[id], s.last[id], Of(s));
    }
    hide Bears, Holds, Of, RowsOk, RequestsOk;
    SettingChanges(s, t) by { assert Kept(s); }
  }

  lemma CountTrusts(s: Sys, t: Sys, k: nat, put: Put)
    requires k !in s.puts && put.Counting? && t == s.(puts := s.puts[k := put])
    ensures Trusted(t) == Trusted(s) && Complete(t) == (Complete(s) || FoundNone(put))
  {
    hide FoundNone;
    assert forall p :: Allows(t, p) == Allows(s, p) by {
      forall p ensures Allows(t, p) == Allows(s, p) {
        if j :| j in s.puts && s.puts[j] == Allowed(p) { assert t.puts[j] == Allowed(p); }
      }
    }
    hide Allows;
    if j :| j in s.puts && FoundNone(s.puts[j]) { assert FoundNone(t.puts[j]); }
    if FoundNone(put) { assert FoundNone(t.puts[k]); }
  }

  lemma CountKeeps(s: Sys, k: nat, target: Phase)
    requires Kept(s) && Enabled(s, Count(k, target)) && Disciplined(s, Count(k, target))
    ensures Kept(Apply(s, Count(k, target)))
  {
    hide SplitGuestName, StateOf;
    var put := Counting(target, StateOf(s.schema, s.rows).awaiting);
    var t := s.(puts := s.puts[k := put]);
    CountTrusts(s, t, k, put);
    assert PhaseOk(t) by { CountedBy(s); }
    hide Complete, Trusted;
    if FoundNone(put) {
      NoneAwaits(s.schema, s.rows);
    } else {
      hide PhaseOk, RowsOk, RequestsOk, BatchOk;
      Relaxes(s, t);
    }
  }

  lemma CountedBy(s: Sys)
    ensures StateOf(s.schema, s.rows).awaiting.Some? == s.schema.newPresent
  {
  }

  lemma CheckKeeps(s: Sys, k: nat)
    requires Kept(s) && Enabled(s, Check(k))
    ensures Kept(DoCheck(s, k))
  {
    hide SplitGuestName, StateOf, Accepts;
    var t, put := DoCheck(s, k), s.puts[k];
    var agreed := k in t.puts && ReadsNew(put.target);
    assert PhaseOk(s) && (agreed ==> put.awaiting.Some? == s.schema.newPresent);
    if agreed {
      CountsAreZero(put.target, s.schema, s.rows, put.awaiting);
      assert FoundNone(s.puts[k]);
    }
    assert Complete(t) ==> Complete(s);
    hide Complete, FoundNone;
    assert PhaseOk(t);
    if Trusted(t) && !Trusted(s) {
      assert !s.retired by { assert May(s, s.phase); }
      hide Trusted;
      Trusts(s, t);
    } else {
      hide Trusted, PhaseOk, RowsOk, RequestsOk, BatchOk;
      Relaxes(s, t);
    }
  }

  lemma Trusts(s: Sys, t: Sys)
    requires Kept(s) && PhaseOk(t) && t == s.(puts := t.puts) && !s.retired && Complete(s)
    requires s.schema.guestPresent ==> forall id :: id in s.rows ==> !NameMismatch(s.rows[id].names)
    ensures Kept(t)
  {
    hide SplitGuestName, RequestOk, SplitOrShaped, Complete, Trusted, NameMismatch;
    forall id | id in s.rows && id in s.last ensures Holds(s.rows[id], s.last[id], Of(s), Of(t)) {
      assert RowOk(s.rows[id], s.last[id], Of(s));
      InOrder(s.rows[id].names, s.last[id]);
    }
    forall r | r in t.reqs ensures Bears(s.reqs[r], Of(s), Of(t)) {}
    hide Bears, Holds, Of, RowsOk, RequestsOk;
    SettingChanges(s, t) by { assert Kept(s); }
  }

  lemma EnterTrusts(s: Sys, t: Sys, k: nat)
    requires k in s.puts && s.puts[k].Allowed? && t.puts == s.puts - {k} && t.phase == s.puts[k].target
    ensures (Trusted(t) ==> Trusted(s)) && (Complete(t) ==> Complete(s))
  {
  }

  lemma EnterKeeps(s: Sys, k: nat)
    requires Kept(s) && Enabled(s, Enter(k)) && Disciplined(s, Enter(k))
    ensures Kept(DoEnter(s, k))
  {
    hide SplitGuestName, Complete, Trusted;
    var t := DoEnter(s, k);
    EnterTrusts(s, t, k);
    var u := s.(puts := s.puts - {k});
    assert GuestIsCurrent(u) == GuestIsCurrent(s);
    hide GuestIsCurrent;
    assert PhaseOk(t);
    hide PhaseOk, RowsOk, RequestsOk, BatchOk;
    Relaxes(s, t);
  }

  /** With guest_name current in every row some phase is accepted, legacy if no other. */
  lemma RestartAccepts(s: Sys, configured: Phase)
    requires Kept(s) && !s.retired
    ensures Accepts(Reconciled(configured, StateOf(s.schema, s.rows)), StateOf(s.schema, s.rows))
  {
    hide SplitGuestName, SplitOrShaped, RequestsOk, BatchOk, Settles, Complete, Trusted, Awaiting, Mismatched,
      Reconciled;
    forall id ensures id !in Missing(s.rows) {
      if id in s.rows { assert RowOk(s.rows[id], s.last[id], Of(s)); }
    }
    assert Missing(s.rows) == {};
    hide Missing;
    SomePhaseFits(s.schema, s.rows);
    ReconciledIsBest(configured, StateOf(s.schema, s.rows));
  }

  lemma AcceptedReads(p: Phase, schema: Schema, rows: Table)
    requires Accepts(p, StateOf(schema, rows)) && ReadsNew(p)
    ensures forall id :: id in rows ==> rows[id].names.first.Some?
    ensures schema.guestPresent ==> forall id :: id in rows ==> !NameMismatch(rows[id].names)
  {
    hide NameMismatch;
    CountsAreZero(p, schema, rows, StateOf(schema, rows).awaiting);
    NoneAwaits(schema, rows);
  }

  lemma RestartKeeps(s: Sys, configured: Phase)
    requires Kept(s) && Disciplined(s, Restart(configured))
    ensures Kept(DoRestart(s, configured))
  {
    hide SplitGuestName, Reconciled, StateOf, Accepts, PhaseFits;
    var t, p := DoRestart(s, configured), Reconciled(configured, StateOf(s.schema, s.rows));
    assert t.puts == map[] && forall q :: !Allows(t, q);
    if !s.retired { RestartAccepts(s, configured); }
    assert s.retired ==> Trusted(s) && Complete(s);
    if ReadsNew(p) && !s.retired { AcceptedReads(p, s.schema, s.rows); }
    var u := s.(puts := map[], reqs := map[]);
    assert GuestIsCurrent(u) ==> forall id :: id in s.rows && id in s.last ==>
      s.rows[id].names.guest == Some(s.last[id]);
    assert PhaseOk(t);
    assert Trusted(t) ==> ReadsNew(p);
    hide Complete, Trusted, GuestIsCurrent;
    RestartRows(s, t, p);
  }

  lemma RestartRows(s: Sys, t: Sys, p: Phase)
    requires Kept(s) && PhaseOk(t) && t == s.(reqs := map[], puts := map[], phase := p, retired := t.retired)
    requires s.retired && !t.retired ==>
      forall id :: id in s.rows && id in s.last ==> s.rows[id].names.guest == Some(s.last[id])
    requires s.retired ==> Trusted(s) && Complete(s)
    requires (Trusted(t) ==> ReadsNew(p)) && (Complete(t) ==> ReadsNew(p))
    requires ReadsNew(p) && !s.retired ==> forall id :: id in s.rows ==>
      s.rows[id].names.first.Some? && !NameMismatch(s.rows[id].names)
    ensures Kept(t)
  {
    hide SplitGuestName, RequestOk, SplitOrShaped, Complete, Trusted, NameMismatch;
    forall id | id in s.rows && id in s.last ensures Holds(s.rows[id], s.last[id], Of(s), Of(t)) {
      assert RowOk(s.rows[id], s.last[id], Of(s));
      if !s.retired && ReadsNew(p) { InOrder(s.rows[id].names, s.last[id]); }
    }
    hide Holds, Of, RowsOk, RequestsOk, Bears;
    SettingChanges(s, t) by { assert Kept(s); }
  }

  // ---- The schema ----

  /** The columns change, and the rows with them; phases, PUTs and requests do not. */
  predicate OnlySchema(s: Sys, t: Sys) {
    && t.phase == s.phase && t.puts == s.puts && t.retired == s.retired && t.reqs == s.reqs
    && t.last == s.last && t.batch == s.batch && s.clock <= t.clock
    && t.rows.Keys == s.rows.Keys
  }

  lemma SchemaChanges(s: Sys, t: Sys)
    requires Kept(s) && OnlySchema(s, t) && (t.rows == s.rows || s.batch == map[])
    requires !t.retired ==> t.schema.guestPresent
    requires t.schema.newPresent == s.schema.newPresent || forall k :: k in s.puts ==> s.puts[k].Allowed?
    requires forall r :: r in s.reqs ==> Bears(s.reqs[r], Of(s), Of(t))
    requires forall id :: id in s.rows && id in s.last && RowOk(s.rows[id], s.last[id], Of(s)) ==>
      RowOk(t.rows[id], s.last[id], Of(t))
    ensures Kept(t)
  {
    hide SplitGuestName, RowOk, RequestOk, Bears;
    assert Settles(t) by { StillSettles(s, t); }
    hide Settles, Of;
    forall r | r in t.reqs ensures RequestOk(t.reqs[r], Of(t)) { RequestStays(s.reqs[r], Of(s), Of(t)); }
  }

  lemma StillSettles(s: Sys, t: Sys)
    requires Settles(s) && t.phase == s.phase && t.puts == s.puts && t.retired == s.retired
    ensures Settles(t) && Complete(t) == Complete(s) && Trusted(t) == Trusted(s)
  {
  }

  predicate OnlyRelaxes(step: Step) {
    step.Upgrade0002? || step.Upgrade0003? || step.FirstNotNull? || step.LastNotNull?
  }

  lemma UpgradeBears(q: Request, step: Step, now: Setting)
    requires OnlyRelaxes(step) && (step.FirstNotNull? && q.Inserting? ==> FirstName in q.cols)
    requires step.LastNotNull? && q.Inserting? ==> LastName in q.cols
    requires step.Upgrade0002? ==> !now.schema.newPresent
    ensures Bears(q, now, now.(schema := Altered(now.schema, step)))
  {
  }

  lemma UpgradeRequests(s: Sys, step: Step)
    requires Enabled(s, step) && Disciplined(s, step) && OnlyRelaxes(step)
    ensures var t := s.(schema := Altered(s.schema, step));
      forall r :: r in s.reqs ==> Bears(s.reqs[r], Of(s), Of(t))
  {
    hide Bears, NoRowLacks, Ordered, Unlocked, Altered;
    var t := s.(schema := Altered(s.schema, step));
    forall r | r in s.reqs ensures Bears(s.reqs[r], Of(s), Of(t)) { UpgradeBears(s.reqs[r], step, Of(s)); }
  }

  lemma UpgradeKeeps(s: Sys, step: Step)
    requires Kept(s) && Enabled(s, step) && Disciplined(s, step) && OnlyRelaxes(step)
    ensures Kept(Apply(s, step))
  {
    hide Kept, Bears, RowOk, Of, Enabled, Disciplined, Altered;
    var t := s.(schema := Altered(s.schema, step));
    assert Apply(s, step) == t;
    UpgradeRequests(s, step);
    UpgradeRows(s, step);
    UpgradePresent(s, step);
    SchemaChanges(s, t);
  }

  lemma UpgradePresent(s: Sys, step: Step)
    requires Kept(s) && Enabled(s, step) && OnlyRelaxes(step)
    ensures !s.retired ==> Altered(s.schema, step).guestPresent
    ensures Altered(s.schema, step).newPresent == s.schema.newPresent || forall k :: k in s.puts ==> s.puts[k].Allowed?
  {
  }

  lemma UpgradeRows(s: Sys, step: Step)
    requires OnlyRelaxes(step)
    ensures var t := s.(schema := Altered(s.schema, step));
      forall id :: id in s.rows && id in s.last && RowOk(s.rows[id], s.last[id], Of(s)) ==>
        RowOk(s.rows[id], s.last[id], Of(t))
  {
  }

  lemma DropGuestKeeps(s: Sys)
    requires Kept(s) && Enabled(s, DropGuestName) && Disciplined(s, DropGuestName)
    ensures Kept(DoDropGuest(s))
  {
    hide SplitGuestName, Shaped, BatchOk;
    var t := DoDropGuest(s);
    StillSettles(s, t);
    assert s.retired;
    hide Complete, Trusted, Settles, May;
    forall r | r in s.reqs ensures Bears(s.reqs[r], Of(s), Of(t)) {}
    hide Bears;
    SchemaChanges(s, t);
  }

  lemma Downgrade0004Keeps(s: Sys)
    requires Kept(s) && Enabled(s, Downgrade0004)
    ensures Kept(DoDowngrade0004(s))
  {
    hide SplitGuestName, Shaped, BatchOk, TooLong, RebuiltName;
    var t := DoDowngrade0004(s);
    StillSettles(s, t);
    assert s.retired;
    assert Complete(s) by { assert May(s, s.phase); }
    hide Complete, Trusted, Settles;
    assert forall id :: id in s.rows && id in s.last && RowOk(s.rows[id], s.last[id], Of(s)) ==>
      RowOk(t.rows[id], s.last[id], Of(t));
    forall r | r in s.reqs ensures Bears(s.reqs[r], Of(s), Of(t)) {}
    hide Bears, RowOk;
    SchemaChanges(s, t);
  }

  lemma Downgrade0003Keeps(s: Sys)
    requires Kept(s) && Enabled(s, Downgrade0003) && Disciplined(s, Downgrade0003)
    ensures Kept(DoDowngrade0003(s))
  {
    hide SplitGuestName, Shaped, BatchOk, TooLong, RebuiltName, Missing, May;
    var t := DoDowngrade0003(s);
    StillSettles(s, t);
    hide Complete, Trusted, Settles;
    forall r | r in s.reqs ensures Bears(s.reqs[r], Of(s), Of(t)) {}
    hide Bears, RowOk;
    SchemaChanges(s, t);
  }

  lemma Downgrade0002Keeps(s: Sys)
    requires Kept(s) && Enabled(s, Downgrade0002) && Disciplined(s, Downgrade0002)
    ensures Kept(DoDowngrade0002(s))
  {
    hide SplitGuestName, Shaped, BatchOk, May;
    var t := DoDowngrade0002(s);
    StillSettles(s, t);
    hide Complete, Trusted, Settles;
    forall r | r in s.reqs ensures Bears(s.reqs[r], Of(s), Of(t)) {}
    hide Bears;
    SchemaChanges(s, t);
  }

  // ---- Whole runs ----

  lemma InitIsOk(s: Sys)
    requires Init(s)
    ensures Inv(s)
  {
  }

  lemma RequestStepKeeps(s: Sys, step: Step)
    requires Inv(s) && Enabled(s, step) && Disciplined(s, step)
    requires step.Arrive? || step.Book? || step.Query? || step.Fetch? || step.Resume? || step.Commit? || step.Refuse?
    ensures Kept(Apply(s, step))
  {
    hide Kept, PhasesFit, DoQuery, DoFetch, DoResume, CommitUpdate, CommitInsert, Overhangs, Of;
    match step {
      case Arrive(r, goal, id) => SetKeeps(s, r, Accepted(goal, id));
      case Book(r, name) => BookKeeps(s, r, name);
      case Query(r) => QueryKeeps(s, r);
      case Fetch(r) => FetchKeeps(s, r);
      case Resume(r) => ResumeKeeps(s, r);
      case Commit(r, newId) => if s.reqs[r].Updating? { UpdateKeeps(s, r); } else { InsertKeeps(s, r, newId); }
      case Refuse(r) => SetKeeps(s, r, Answered(Refused));
    }
  }

  lemma OtherStepKeeps(s: Sys, step: Step)
    requires Kept(s) && Enabled(s, step) && Disciplined(s, step)
    requires !(step.Arrive? || step.Book? || step.Query? || step.Fetch? || step.Resume? || step.Commit? || step.Refuse?)
    ensures Kept(Apply(s, step))
  {
    hide Kept, Enabled, Disciplined, DoCheck, DoEnter, DoRestart, DoLock, DoFill, DoDropGuest, DoDowngrade0004,
      DoDowngrade0003, DoDowngrade0002, StateOf;
    match step {
      case Count(k, target) => CountKeeps(s, k, target);
      case Check(k) => CheckKeeps(s, k);
      case Enter(k) => EnterKeeps(s, k);
      case Restart(configured) => RestartKeeps(s, configured);
      case Lock(ids) => LockKeeps(s, ids);
      case Fill => FillKeeps(s);
      case Abandon => AbandonKeeps(s);
      case DropGuestName => DropGuestKeeps(s);
      case Downgrade0004 => Downgrade0004Keeps(s);
      case Downgrade0003 => Downgrade0003Keeps(s);
      case Downgrade0002 => Downgrade0002Keeps(s);
      case Upgrade0002 => UpgradeKeeps(s, step);
      case Upgrade0003 => UpgradeKeeps(s, step);
      case FirstNotNull => UpgradeKeeps(s, step);
      case LastNotNull => UpgradeKeeps(s, step);
    }
  }

  lemma StepKeeps(s: Sys, step: Step)
    requires Inv(s) && Enabled(s, step) && Disciplined(s, step)
    ensures Inv(Apply(s, step))
  {
    assert Ordered(s, step);
    hide PhasesFit, Kept, Enabled, Disciplined, Apply, Ordered;
    Phases.StepKeeps(s, step);
    if step.Arrive? || step.Book? || step.Query? || step.Fetch? || step.Resume? || step.Commit? || step.Refuse? {
      RequestStepKeeps(s, step);
    } else {
      OtherStepKeeps(s, step);
    }
  }

  lemma {:induction false} RunKeeps(s: Sys, steps: seq<Step>)
    requires Inv(s) && DisciplinedRun(s, steps)
    ensures Run(s, steps) && Inv(After(s, steps))
    decreases |steps|
  {
    hide Inv, Enabled, Disciplined, Apply;
    if steps != [] {
      StepKeeps(s, steps[0]);
      RunKeeps(Apply(s, steps[0]), steps[1..]);
    }
  }

  /** No request of a disciplined run ever names a column that is not there or leaves a
      mandatory one out, and every answer whose query and response read the same columns
      shows the name that was committed last when it was read; whatever the names. */
  lemma AnswersAreFaithful(s: Sys, steps: seq<Step>, r: nat)
    requires Init(s) && DisciplinedRun(s, steps)
    ensures Run(s, steps)
    ensures var t := After(s, steps);
      r in t.reqs && t.reqs[r].Answered? ==> FaithfulReply(t.reqs[r].reply)
  {
    InitIsOk(s);
    hide Init, PhasesFit, Kept, Run, After, DisciplinedRun, FaithfulReply;
    RunKeeps(s, steps);
    if r in After(s, steps).reqs { OneRequest(After(s, steps), r); }
  }

  /** In every state a disciplined run reaches, the columns that are read hold the last
      committed name, and while it is not retired so does guest_name. */
  lemma RowsAreFaithful(s: Sys, steps: seq<Step>, id: int)
    requires Init(s) && DisciplinedRun(s, steps)
    ensures Run(s, steps)
    ensures var t := After(s, steps);
      && t.rows.Keys == t.last.Keys
      && (id in t.rows ==>
        && (!t.retired ==> t.rows[id].names.guest == Some(t.last[id]))
        && Content(ReadColumns(t.phase), t.rows[id].names, t.last[id]))
  {
    InitIsOk(s);
    hide Init, PhasesFit, Run, After, DisciplinedRun, RequestsOk, BatchOk, PhaseOk, Of, SplitGuestName;
    RunKeeps(s, steps);
    var t := After(s, steps);
    if id in t.rows {
      assert RowOk(t.rows[id], t.last[id], Of(t));
      hide RowOk, Content;
      FetchedContent(t, id);
    }
  }

}
