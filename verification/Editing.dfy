/** Editing and cancelling under optimistic locking: the load, If-Match and
    compare-and-set sequence of PATCH and DELETE, run by N clients at once over
    the rows that the exclusion constraint protects. */
module Editing {
  import opened Names
  import opened Store
  import opened Booking
  import Protocol
  import Etag

  /** The values a PATCH can change; a name is kept in columns. */
  datatype Fields = Fields(names: NameCols, party: int, status: Status)

  /** `version` is xmin. */
  datatype Resv = Resv(table: int, window: Window, fields: Fields, version: nat)

  type Resvs = map<int, Resv>

  /** The rows as the exclusion constraint sees them. */
  function Slots(rows: Resvs): Bookings {
    map id | id in rows :: Booked(rows[id].table, rows[id].window, rows[id].fields.status)
  }

  /** PATCH has all four parts and needs the header; DELETE is a PATCH to cancelled
      that does not need it. */
  datatype Edit = Edit(id: int, header: Option<string>, required: bool,
                       name: Option<string>, party: Option<int>, status: Option<Status>)

  function Patch(id: int, header: Option<string>, name: Option<string>, party: Option<int>,
    status: Option<Status>): Edit {
    Edit(id, header, true, name, party, status)
  }

  function Cancel(id: int, header: Option<string>): Edit {
    Edit(id, header, false, None, None, Some(Cancelled))
  }

  datatype Code =
    | OK200
    | Missing404
    | Stale409        // the version check of the UPDATE
    | Failed412
    | Unprocessable422
    | Required428
    | Error500           // the exclusion constraint, which the service does not catch here

  /** What a request has loaded, and with which name columns. */
  datatype Copy = Copy(row: Resv, read: seq<Column>)

  /** Once answered, a loaded request has written, or found in place, the name columns `written`. */
  datatype Stage =
    | Asked
    | Loaded(copy: Copy)
    | Replied(code: Code, held: Option<Copy>, written: seq<Column>)

  /** `seen` is what the client had read before it sent the request, if it did. */
  datatype Call = Call(edit: Edit, seen: Option<Resv>, stage: Stage)

  /** One committed write of one row: a call's, or one of the backfill's or a revision's. */
  datatype Change = Change(call: Option<nat>, id: int, before: Resv, after: Resv)

  /** `log` is history. */
  datatype World = World(rows: Resvs, clock: nat, calls: map<nat, Call>, log: seq<Change>)

  datatype Step =
    | Ask(i: nat, edit: Edit)
    | AskIncrement(i: nat, id: int)
    | Load(i: nat, read: seq<Column>)
    | Commit(i: nat, write: seq<Column>)
    | Create(id: int, table: int, window: Window, names: NameCols, party: int)
    | Touch(id: int, names: NameCols)    // the backfill, or a revision, writes name columns

  function Or<T>(new_: Option<T>, current: T): T {
    if new_.Some? then new_.value else current
  }

  /** The fields after the edit; a name goes to the columns `write`. */
  function Edited(f: Fields, e: Edit, write: seq<Column>): Fields {
    Fields(
      if e.name.Some? then Protocol.WriteName(f.names, write, e.name.value) else f.names,
      Or(e.party, f.party), Or(e.status, f.status))
  }

  /** What a PATCH makes of the fields: the party and the status that were sent, else those that
      were there; in the name columns that are written, the name sent or its part; in the
      others, what was there. */
  predicate Carries(e: Edit, write: seq<Column>, before: Fields, after: Fields) {
    && (match e.party case Some(party) => after.party == party case None => after.party == before.party)
    && (match e.status case Some(status) => after.status == status case None => after.status == before.status)
    && match e.name
       case None => after.names == before.names
       case Some(name) =>
         && after.names.guest == (if GuestName in write then Some(name) else before.names.guest)
         && after.names.first == (if FirstName in write then Some(SplitGuestName(name).first) else before.names.first)
         && after.names.last == (if LastName in write then Some(SplitGuestName(name).last) else before.names.last)
  }

  lemma EditedCarries(f: Fields, e: Edit, write: seq<Column>)
    ensures Carries(e, write, f, Edited(f, e, write))
  {
    hide SplitGuestName;
  }

  /** With nothing to write the row carries already what was asked for. */
  lemma NothingCarries(e: Edit, copy: Copy, write: seq<Column>)
    requires !ToWrite(e, copy, write)
    ensures Carries(e, write, copy.row.fields, copy.row.fields) && Edited(copy.row.fields, e, write) == copy.row.fields
  {
    hide SplitGuestName;
    if e.name.Some? {
      var n, name := copy.row.fields.names, e.name.value;
      assert forall c :: c in write ==> Cell(n, c) == Some(Protocol.ValueFor(name, c));
      assert Cell(n, GuestName) == n.guest && Cell(n, FirstName) == n.first && Cell(n, LastName) == n.last;
    }
  }

  /** GET, then PATCH with the version and one more guest. */
  function Increment(id: int, r: Resv): Edit {
    Patch(id, Some(Etag.Tag(r.version)), None, Some(r.fields.party + 1), None)
  }

  lemma IncrementAddsOne(id: int, r: Resv, write: seq<Column>)
    ensures Edited(r.fields, Increment(id, r), write) == r.fields.(party := r.fields.party + 1)
  {
  }

  /** Validation, then loading the row, then If-Match. */
  function Answered(rows: Resvs, e: Edit, read: seq<Column>): Stage {
    if e.party.Some? && !(0 < e.party.value <= 20) then Replied(Unprocessable422, None, [])
    else if e.id !in rows then Replied(Missing404, None, [])
    else
      match Etag.CheckIfMatch(e.header, rows[e.id].version, e.required)
      case Required428 => Replied(Required428, None, [])
      case Failed412 => Replied(Failed412, None, [])
      case Pass => Loaded(Copy(rows[e.id], read))
  }

  /** Each way to be turned away before anything is compared, and what is loaded otherwise. */
  lemma AnsweredExactly(rows: Resvs, e: Edit, read: seq<Column>)
    ensures var a := Answered(rows, e, read);
      var bad := e.party.Some? && (e.party.value <= 0 || 20 < e.party.value);
      && (a == Replied(Unprocessable422, None, []) <==> bad)
      && (a == Replied(Missing404, None, []) <==> !bad && e.id !in rows)
      && (a == Replied(Required428, None, []) <==> !bad && e.id in rows && e.header.None? && e.required)
      && (a.Loaded? <==>
            !bad && e.id in rows && Etag.CheckIfMatch(e.header, rows[e.id].version, e.required) == Etag.Pass)
      && (a.Loaded? ==> a.copy == Copy(rows[e.id], read))
      && (a.Loaded? || a == Replied(Failed412, None, []) || a == Replied(Unprocessable422, None, [])
          || a == Replied(Missing404, None, []) || a == Replied(Required428, None, []))
  {
    if e.header.Some? && e.id in rows { Etag.CheckMeans(e.header.value, rows[e.id].version, e.required); }
    hide Etag.Mentions;
  }

  /** PATCH insists on the header, DELETE does not. */
  lemma OnlyPatchNeedsHeader(rows: Resvs, id: int, read: seq<Column>)
    requires id in rows
    ensures Answered(rows, Cancel(id, None), read) == Loaded(Copy(rows[id], read))
    ensures Answered(rows, Patch(id, None, None, None, None), read) == Replied(Required428, None, [])
  {
  }

  /** The row would be live again and in the way of a live booking. */
  predicate Refused(rows: Resvs, id: int, f: Fields)
    requires id in rows
  {
    f.status != Cancelled && exists j ::
      j in rows && j != id && Clashes(Slots(rows)[j], rows[id].table, rows[id].window)
  }

  /** Party or status differ, or a name column has not been loaded, or would get another value. */
  predicate ToWrite(e: Edit, copy: Copy, write: seq<Column>) {
    var f := copy.row.fields;
    || Or(e.party, f.party) != f.party || Or(e.status, f.status) != f.status
    || (e.name.Some? && Protocol.NetChange(copy.read, f.names, write, e.name.value))
  }

  /** UPDATE ... WHERE id AND version, if there is something to write; then COMMIT. */
  function Verdict(rows: Resvs, e: Edit, copy: Copy, write: seq<Column>): Code {
    if !ToWrite(e, copy, write) then OK200
    else if e.id !in rows || rows[e.id].version != copy.row.version then Stale409
    else if Refused(rows, e.id, Edited(copy.row.fields, e, write)) then Error500
    else OK200
  }

  predicate Writes(rows: Resvs, e: Edit, copy: Copy, write: seq<Column>) {
    Verdict(rows, e, copy, write) == OK200 && ToWrite(e, copy, write)
  }

  function Put(w: World, i: nat, stage: Stage): World
    requires i in w.calls
  {
    w.(calls := w.calls[i := w.calls[i].(stage := stage)])
  }

  /** A row gets other fields and a new version. */
  function WithRow(w: World, call: Option<nat>, id: int, f: Fields): World
    requires id in w.rows
  {
    var after := w.rows[id].(fields := f, version := w.clock);
    w.(rows := w.rows[id := after], clock := w.clock + 1, log := w.log + [Change(call, id, w.rows[id], after)])
  }

  function DoCommit(w: World, i: nat, write: seq<Column>): World
    requires i in w.calls && w.calls[i].stage.Loaded?
  {
    var e, copy := w.calls[i].edit, w.calls[i].stage.copy;
    var t := Put(w, i, Replied(Verdict(w.rows, e, copy, write), Some(copy), write));
    if !Writes(w.rows, e, copy, write) then t
    else WithRow(t, Some(i), e.id, Edited(copy.row.fields, e, write))
  }

  predicate Enabled(w: World, step: Step) {
    match step
    case Ask(i, edit) => i !in w.calls
    case AskIncrement(i, id) => i !in w.calls && id in w.rows
    case Load(i, _) => i in w.calls && w.calls[i].stage.Asked?
    case Commit(i, _) => i in w.calls && w.calls[i].stage.Loaded?
    case Create(id, table, window, names, party) => id !in w.rows && !Taken(Slots(w.rows), table, window)
    case Touch(id, _) => id in w.rows
  }

  function Apply(w: World, step: Step): World
    requires Enabled(w, step)
  {
    match step
    case Ask(i, edit) => w.(calls := w.calls[i := Call(edit, None, Asked)])
    case AskIncrement(i, id) =>
      w.(calls := w.calls[i := Call(Increment(id, w.rows[id]), Some(w.rows[id]), Asked)])
    case Load(i, read) => Put(w, i, Answered(w.rows, w.calls[i].edit, read))
    case Commit(i, write) => DoCommit(w, i, write)
    case Create(id, table, window, names, party) =>
      w.(rows := w.rows[id := Resv(table, window, Fields(names, party, Confirmed), w.clock)], clock := w.clock + 1)
    case Touch(id, names) => WithRow(w, None, id, w.rows[id].fields.(names := names))
  }

  predicate Init(w: World) {
    && w.calls == map[] && w.log == [] && NoDoubleBooking(Slots(w.rows))
    && forall id :: id in w.rows ==> w.rows[id].version < w.clock
  }

  predicate Run(w: World, steps: seq<Step>)
    decreases |steps|
  {
    steps == [] || (Enabled(w, steps[0]) && Run(Apply(w, steps[0]), steps[1..]))
  }

  function After(w: World, steps: seq<Step>): World
    requires Run(w, steps)
    decreases |steps|
  {
    if steps == [] then w else After(Apply(w, steps[0]), steps[1..])
  }

  // ---- No double booking ----

  /** Creates, edits (back from cancelled as well) and cancellations: no two live
      reservations of a table ever overlap. */
  lemma {:induction false} NeverDoubleBooked(w: World, steps: seq<Step>)
    requires NoDoubleBooking(Slots(w.rows)) && Run(w, steps)
    ensures NoDoubleBooking(Slots(After(w, steps).rows))
    decreases |steps|
  {
    hide NoDoubleBooking, Enabled, Apply;
    if steps != [] {
      StepKeepsApart(w, steps[0]);
      NeverDoubleBooked(Apply(w, steps[0]), steps[1..]);
    }
  }

  lemma StepKeepsApart(w: World, step: Step)
    requires NoDoubleBooking(Slots(w.rows)) && Enabled(w, step)
    ensures NoDoubleBooking(Slots(Apply(w, step).rows))
  {
    hide NoDoubleBooking, Overlap, Taken, Clashes, Edited, Refused;
    var t := Apply(w, step);
    match step {
      case Ask(_, _) => assert t.rows == w.rows;
      case AskIncrement(_, _) => assert t.rows == w.rows;
      case Load(_, _) => assert t.rows == w.rows;
      case Create(id, table, window, names, party) =>
        var b := Booked(table, window, Confirmed);
        CommitKeepsApart(Slots(w.rows), id, b);
        assert Slots(t.rows) == Slots(w.rows)[id := b];
      case Touch(id, names) => assert Slots(t.rows) == Slots(w.rows);
      case Commit(i, write) =>
        var e, copy := w.calls[i].edit, w.calls[i].stage.copy;
        if Writes(w.rows, e, copy, write) {
          EditKeepsApart(w.rows, e.id, t.rows[e.id].fields, w.clock);
        }
    }
  }

  lemma EditKeepsApart(rows: Resvs, id: int, f: Fields, version: nat)
    requires id in rows && NoDoubleBooking(Slots(rows)) && !Refused(rows, id, f)
    ensures NoDoubleBooking(Slots(rows[id := rows[id].(fields := f, version := version)]))
  {
    hide Overlap;
    var s, t := Slots(rows), Slots(rows[id := rows[id].(fields := f, version := version)]);
    forall i, j | i in t && j in t && i != j && Live(t[j]) ensures !Clashes(t[i], t[j].table, t[j].window) {
      if j == id {
        assert t[i] == s[i];
      } else if i == id && Live(t[i]) {
        assert !Clashes(s[j], s[id].table, s[id].window);
        Symmetric(t[i], t[j]);
      } else {
        assert t[j] == s[j] && (i != id ==> t[i] == s[i]);
      }
    }
  }

  lemma Symmetric(a: Booked, b: Booked)
    requires Live(a) && Live(b)
    ensures Clashes(a, b.table, b.window) <==> Clashes(b, a.table, a.window)
  {
  }

  /** When the constraint refuses an edit, which is answered with a 500: exactly when it brings
      a cancelled booking, unchanged since it was loaded, back to a slot taken since. */
  lemma RefusedExactly(rows: Resvs, e: Edit, copy: Copy, write: seq<Column>)
    requires NoDoubleBooking(Slots(rows)) && e.id in rows
    requires rows[e.id].version == copy.row.version ==> rows[e.id] == copy.row
    ensures var loaded := copy.row;
      Verdict(rows, e, copy, write) == Error500 <==>
        && rows[e.id].version == loaded.version
        && loaded.fields.status == Cancelled && Or(e.status, Cancelled) != Cancelled
        && Taken(Slots(rows), loaded.table, loaded.window)
  {
    hide Overlap, Protocol.WriteName, Protocol.NetChange;
    var id, loaded, s := e.id, copy.row, Slots(rows);
    var f := Edited(loaded.fields, e, write);
    if rows[id] == loaded && Refused(rows, id, f) {
      var j :| j in rows && j != id && Clashes(s[j], rows[id].table, rows[id].window);
      assert j in s && id in s;
      assert loaded.fields.status == Cancelled;
    }
    if rows[id] == loaded && loaded.fields.status == Cancelled && Taken(s, loaded.table, loaded.window) {
      var j :| j in s && Clashes(s[j], loaded.table, loaded.window);
      assert j != id;
    }
  }

  /** A DELETE is never refused, and it frees the slot, unless the booking was cancelled
      already when it was loaded: then nothing is written, and nothing checked. */
  lemma CancelFrees(w: World, i: nat, id: int, header: Option<string>, write: seq<Column>)
    requires i in w.calls && w.calls[i].stage.Loaded? && w.calls[i].edit == Cancel(id, header) && id in w.rows
    ensures var t, loaded := DoCommit(w, i, write), w.calls[i].stage.copy.row;
      && t.calls[i].stage.Replied? && (t.calls[i].stage.code == OK200 || t.calls[i].stage.code == Stale409)
      && (t.calls[i].stage.code == OK200 && loaded.fields.status != Cancelled ==>
            id in t.rows && !Live(Slots(t.rows)[id]))
      && (loaded.fields.status == Cancelled ==> t.calls[i].stage.code == OK200 && t.rows == w.rows)
  {
  }

  // ---- Changes form a chain ----

  function ChangesOf(log: seq<Change>, id: int): seq<Change> {
    if log == [] then []
    else
      var rest, c := ChangesOf(log[..|log| - 1], id), log[|log| - 1];
      if c.id == id then rest + [c] else rest
  }

  /** The writes of one row, from the row as it was at the start to the row as it is. */
  predicate Chain(start: Resvs, rows: Resvs, id: int, h: seq<Change>) {
    && (forall k :: 0 <= k < |h| - 1 ==> h[k].after == h[k + 1].before)
    && (forall k, l :: 0 <= k < l < |h| ==> h[k].before.version < h[l].before.version)
    && (forall k :: 0 <= k < |h| ==> id in rows && h[k].before.version < rows[id].version)
    && (h != [] ==> h[|h| - 1].after == rows[id])
    && (id in start ==> id in rows && start[id] == if h == [] then rows[id] else h[0].before)
  }

  /** A call's change is what its request asked for, applied to what its request loaded and
      matched; the backfill and the revisions change nothing but name columns. */
  predicate Honoured(w: World, c: Change) {
    c.before.version < c.after.version &&
    match c.call
    case None =>
      c.after == c.before.(fields := c.before.fields.(names := c.after.fields.names), version := c.after.version)
    case Some(i) =>
      i in w.calls && w.calls[i].edit.id == c.id && w.calls[i].stage.Replied? &&
      var e, stage := w.calls[i].edit, w.calls[i].stage;
      && stage.code == OK200 && stage.held.Some? && stage.held.value.row == c.before
      && Etag.CheckIfMatch(e.header, c.before.version, e.required) == Etag.Pass
      && ToWrite(e, stage.held.value, stage.written)
      && c.after == c.before.(fields := Edited(c.before.fields, e, stage.written), version := c.after.version)
  }

  /** What a call in flight knows is the row as it is, unless the version has moved on. */
  predicate Fresh(w: World, id: int, r: Resv) {
    id in w.rows && r.version <= w.rows[id].version && (r.version == w.rows[id].version ==> r == w.rows[id])
  }

  predicate CallFine(w: World, call: Call) {
    call.stage.Loaded? ==>
      && Fresh(w, call.edit.id, call.stage.copy.row)
      && Etag.CheckIfMatch(call.edit.header, call.stage.copy.row.version, call.edit.required) == Etag.Pass
  }

  predicate ByCall(c: Change, i: nat) {
    c.call == Some(i)
  }

  /** A 200 that had something to write has its change. */
  predicate Kept(w: World, i: nat)
    requires i in w.calls
  {
    var e, stage := w.calls[i].edit, w.calls[i].stage;
    stage.Replied? && stage.code == OK200 && stage.held.Some? && ToWrite(e, stage.held.value, stage.written)
    ==> exists k :: 0 <= k < |w.log| && ByCall(w.log[k], i)
  }

  ghost predicate Inv(start: Resvs, w: World) {
    && (forall id :: id in w.rows ==> w.rows[id].version < w.clock)
    && (forall i :: i in w.calls ==> CallFine(w, w.calls[i]))
    && (forall id :: Chain(start, w.rows, id, ChangesOf(w.log, id)))
    && (forall k :: 0 <= k < |w.log| ==> Honoured(w, w.log[k]))
    && (forall k, l :: 0 <= k < l < |w.log| && w.log[k].call.Some? ==> w.log[k].call != w.log[l].call)
    && (forall i :: i in w.calls ==> Kept(w, i))
  }

  lemma KeptStays(w: World, step: Step, i: nat)
    requires Enabled(w, step) && i in Apply(w, step).calls && (i in w.calls ==> Kept(w, i))
    ensures Kept(Apply(w, step), i)
  {
    hide Clashes, Overlap, Taken, Refused, Edited, Verdict, Etag.CheckIfMatch;
    var t := Apply(w, step);
    if step.Commit? && step.i == i {
      if t.log != w.log { assert ByCall(t.log[|w.log|], i); }
    } else if i in w.calls && t.calls[i] == w.calls[i] {
      if k :| 0 <= k < |w.log| && ByCall(w.log[k], i) { assert ByCall(t.log[k], i); }
    }
  }

  lemma StepKeeps(start: Resvs, w: World, step: Step)
    requires Inv(start, w) && Enabled(w, step)
    ensures Inv(start, Apply(w, step))
  {
    hide Clashes, Overlap, Taken, Refused, Edited, Chain, ChangesOf, Honoured, CallFine, Kept, NoDoubleBooking,
      Verdict, ToWrite, Etag.CheckIfMatch;
    var t := Apply(w, step);
    if t.log != w.log {
      WriteIsHonoured(w, step);
      WriteKeepsChains(start, w, t, t.log[|w.log|]);
    } else {
      forall id ensures Chain(start, t.rows, id, ChangesOf(t.log, id)) { ChainStays(start, w, step, id); }
    }
    forall i | i in t.calls ensures CallFine(t, t.calls[i]) { CallsStayFine(w, step, i); }
    forall k | 0 <= k < |w.log| ensures Honoured(t, w.log[k]) { HonouredStays(w, step, w.log[k]); }
    forall i | i in t.calls ensures Kept(t, i) { KeptStays(w, step, i); }
    forall k, l | 0 <= k < l < |t.log| && t.log[k].call.Some? ensures t.log[k].call != t.log[l].call {
      if l == |w.log| && step.Commit? { FromAnother(w, w.log[k], step.i); }
    }
  }

  lemma FromAnother(w: World, c: Change, i: nat)
    requires Honoured(w, c) && i in w.calls && w.calls[i].stage.Loaded?
    ensures c.call != Some(i)
  {
  }

  lemma ChainStays(start: Resvs, w: World, step: Step, id: int)
    requires Enabled(w, step) && Chain(start, w.rows, id, ChangesOf(w.log, id)) && Apply(w, step).log == w.log
    requires id in w.rows ==> w.rows[id].version < w.clock
    ensures Chain(start, Apply(w, step).rows, id, ChangesOf(w.log, id))
  {
    hide ChangesOf, Clashes, Overlap, Taken, Refused, Edited, Etag.CheckIfMatch;
    assert step.Commit? ==> Apply(w, step).rows == w.rows;
  }

  lemma CallsStayFine(w: World, step: Step, i: nat)
    requires Enabled(w, step) && i in Apply(w, step).calls
    requires i in w.calls ==> CallFine(w, w.calls[i])
    requires forall id :: id in w.rows ==> w.rows[id].version < w.clock
    ensures CallFine(Apply(w, step), Apply(w, step).calls[i])
  {
    hide Clashes, Overlap, Taken, Refused, Edited, Verdict, Etag.CheckIfMatch;
  }

  lemma HonouredStays(w: World, step: Step, c: Change)
    requires Enabled(w, step) && Honoured(w, c)
    ensures Honoured(Apply(w, step), c)
  {
  }

  lemma WriteIsHonoured(w: World, step: Step)
    requires Enabled(w, step) && Apply(w, step).log != w.log
    requires step.Commit? ==> CallFine(w, w.calls[step.i])
    requires forall id :: id in w.rows ==> w.rows[id].version < w.clock
    ensures var t := Apply(w, step);
      |t.log| == |w.log| + 1 &&
      var c := t.log[|w.log|];
      && Honoured(t, c) && c.before.version < c.after.version && t.log == w.log + [c]
      && c.id in w.rows && c.before == w.rows[c.id] && t.rows == w.rows[c.id := c.after]
  {
    hide Edited, ToWrite, Refused, Clashes, Overlap, Taken, Etag.CheckIfMatch;
  }

  lemma WriteKeepsChains(start: Resvs, w: World, t: World, c: Change)
    requires t.log == w.log + [c] && t.rows == w.rows[c.id := c.after] && c.id in w.rows && c.before == w.rows[c.id]
    requires c.before.version < c.after.version
    requires forall id :: Chain(start, w.rows, id, ChangesOf(w.log, id))
    ensures forall id :: Chain(start, t.rows, id, ChangesOf(t.log, id))
  {
    hide Chain, ChangesOf;
    forall id ensures Chain(start, t.rows, id, ChangesOf(t.log, id)) {
      ChangesGrow(w.log, c, id);
      if id == c.id {
        ChainGrows(start, w.rows, id, ChangesOf(w.log, id), c);
      } else {
        ChainElsewhere(start, w.rows, t.rows, id, ChangesOf(w.log, id));
        assert ChangesOf(t.log, id) == ChangesOf(w.log, id);
      }
    }
  }

  lemma ChangesGrow(log: seq<Change>, c: Change, id: int)
    ensures ChangesOf(log + [c], id) == ChangesOf(log, id) + (if c.id == id then [c] else [])
  {
  }

  lemma ChainGrows(start: Resvs, rows: Resvs, id: int, h: seq<Change>, c: Change)
    requires Chain(start, rows, id, h) && id in rows
    requires c.before == rows[id] && c.before.version < c.after.version
    ensures Chain(start, rows[id := c.after], id, h + [c])
  {
  }

  lemma ChainElsewhere(start: Resvs, rows: Resvs, rows': Resvs, id: int, h: seq<Change>)
    requires Chain(start, rows, id, h)
    requires (id in rows <==> id in rows') && (id in rows ==> rows[id] == rows'[id])
    ensures Chain(start, rows', id, h)
  {
  }

  lemma {:induction false} RunKeeps(start: Resvs, w: World, steps: seq<Step>)
    requires Inv(start, w) && Run(w, steps)
    ensures Inv(start, After(w, steps))
    decreases |steps|
  {
    hide Inv, Enabled, Apply;
    if steps != [] {
      StepKeeps(start, w, steps[0]);
      RunKeeps(start, Apply(w, steps[0]), steps[1..]);
    }
  }

  /** No lost update, in any schedule of any edits and cancellations, in any phases, beside a
      backfill and revisions that write the same rows: the writes of each reservation lead in one
      line from the row as it was to the row as it is, at most one from each version; each is
      either what a request asked for, applied to the version it loaded, which is one its
      If-Match allowed, or changes nothing but name columns; and a 200 that had something to
      write has its change. */
  lemma EditsAreLinear(w: World, steps: seq<Step>, id: int)
    requires Init(w) && Run(w, steps)
    ensures var t := After(w, steps);
      && Chain(w.rows, t.rows, id, ChangesOf(t.log, id))
      && (forall k :: 0 <= k < |t.log| ==> Honoured(t, t.log[k]))
      && (forall k, l :: 0 <= k < l < |t.log| && t.log[k].call.Some? ==> t.log[k].call != t.log[l].call)
      && (forall i :: i in t.calls ==> Kept(t, i))
      && (forall k :: 0 <= k < |t.log| && t.log[k].call.Some? ==> ChangeCarries(t, t.log[k]))
      && (forall i :: i in t.calls ==> RestCarries(t.calls[i]))
  {
    hide Run, After, Honoured, CallFine, Kept, NoDoubleBooking, ChangeCarries, RestCarries;
    assert Inv(w.rows, w);
    RunKeeps(w.rows, w, steps);
    var t := After(w, steps);
    forall k | 0 <= k < |t.log| && t.log[k].call.Some? ensures ChangeCarries(t, t.log[k]) {
      HonouredCarries(t, t.log[k]);
    }
    forall i | i in t.calls ensures RestCarries(t.calls[i]) { RestIsThere(t.calls[i]); }
  }

  /** The change carries what its call asked for. */
  predicate ChangeCarries(w: World, c: Change)
    requires c.call.Some?
  {
    && c.call.value in w.calls && w.calls[c.call.value].stage.Replied?
    && Carries(w.calls[c.call.value].edit, w.calls[c.call.value].stage.written, c.before.fields, c.after.fields)
    && c.after.table == c.before.table && c.after.window == c.before.window
  }

  /** A 200 with nothing to write had loaded what it asked for. */
  predicate RestCarries(c: Call) {
    c.stage.Replied? && c.stage.code == OK200 && c.stage.held.Some?
    && !ToWrite(c.edit, c.stage.held.value, c.stage.written)
    ==> Carries(c.edit, c.stage.written, c.stage.held.value.row.fields, c.stage.held.value.row.fields)
  }

  lemma HonouredCarries(w: World, c: Change)
    requires Honoured(w, c) && c.call.Some?
    ensures ChangeCarries(w, c)
  {
    hide ToWrite, Etag.CheckIfMatch, Edited, Carries;
    var i := c.call.value;
    EditedCarries(c.before.fields, w.calls[i].edit, w.calls[i].stage.written);
  }

  lemma RestIsThere(c: Call)
    ensures RestCarries(c)
  {
    hide ToWrite, Edited, Carries;
    if c.stage.Replied? && c.stage.held.Some? && !ToWrite(c.edit, c.stage.held.value, c.stage.written) {
      NothingCarries(c.edit, c.stage.held.value, c.stage.written);
    }
  }

  // ---- Read, add one, retry ----

  predicate MustRetry(stage: Stage) {
    stage.Replied? && (stage.code == Stale409 || stage.code == Failed412)
  }

  /** Every call on this row is a client's increment of what it has read. */
  predicate Counted(w: World, id: int, call: Call) {
    call.edit.id == id ==>
      && call.seen.Some? && call.edit == Increment(id, call.seen.value) && Fresh(w, id, call.seen.value)
      && (call.stage.Loaded? ==> call.stage.copy.row == call.seen.value)
      && (MustRetry(call.stage) ==> call.seen.value.version < w.rows[id].version)
  }

  /** The increments answered with 200. */
  function Wins(w: World, id: int): set<nat> {
    set i | i in w.calls && w.calls[i].edit.id == id && w.calls[i].stage.Replied? && w.calls[i].stage.code == OK200
  }

  predicate CountInv(w: World, id: int, start: int) {
    && id in w.rows && (forall k :: k in w.rows ==> w.rows[k].version < w.clock)
    && (forall i :: i in w.calls ==> Counted(w, id, w.calls[i]))
    && w.rows[id].fields.party == start + |Wins(w, id)|
  }

  predicate OnlyIncrements(steps: seq<Step>, id: int) {
    forall k :: 0 <= k < |steps| && steps[k].Ask? ==> steps[k].edit.id != id
  }

  /** An increment that loads its row loads what the client had read; otherwise the row has changed. */
  lemma LoadMatches(w: World, id: int, i: nat, read: seq<Column>)
    requires i in w.calls && w.calls[i].stage.Asked? && w.calls[i].edit.id == id && Counted(w, id, w.calls[i])
    ensures Counted(w, id, w.calls[i].(stage := Answered(w.rows, w.calls[i].edit, read)))
    ensures Answered(w.rows, w.calls[i].edit, read) != Replied(OK200, None, [])
  {
    hide Etag.CheckIfMatch, Etag.Tag;
    Etag.TagMatchesItsVersion(w.calls[i].seen.value.version, w.rows[id].version, true);
  }

  /** A call keeps its standing while the row stays as it is or gets a version never seen. */
  lemma CountedStays(w: World, t: World, id: int, call: Call)
    requires Counted(w, id, call) && id in w.rows && id in t.rows
    requires t.rows[id] == w.rows[id] || w.rows[id].version < t.rows[id].version
    ensures Counted(t, id, call)
  {
  }

  lemma CommitStaysCounted(w: World, i: nat, write: seq<Column>, id: int)
    requires i in w.calls && w.calls[i].stage.Loaded? && Counted(w, id, w.calls[i]) && id in w.rows
    requires w.rows[id].version < w.clock
    ensures Counted(DoCommit(w, i, write), id, DoCommit(w, i, write).calls[i])
  {
  }

  lemma CountedAfter(w: World, step: Step, id: int, i: nat)
    requires Enabled(w, step) && (step.Ask? ==> step.edit.id != id) && i in Apply(w, step).calls
    requires id in w.rows && w.rows[id].version < w.clock
    requires i in w.calls ==> Counted(w, id, w.calls[i])
    ensures Counted(Apply(w, step), id, Apply(w, step).calls[i])
  {
    hide Counted, Clashes, Overlap, Taken, Refused, Etag.CheckIfMatch, Answered, Edited, Verdict;
    var t := Apply(w, step);
    if i in w.calls && t.calls[i] == w.calls[i] {
      CountedStays(w, t, id, w.calls[i]);
    } else if step.Commit? {
      CommitStaysCounted(w, i, step.write, id);
    } else {
      NewlyCounted(w, step, id, i);
    }
  }

  lemma NewlyCounted(w: World, step: Step, id: int, i: nat)
    requires Enabled(w, step) && (step.Ask? ==> step.edit.id != id) && !step.Commit?
    requires i in Apply(w, step).calls && (i in w.calls ==> Apply(w, step).calls[i] != w.calls[i])
    requires id in w.rows && (i in w.calls ==> Counted(w, id, w.calls[i]))
    ensures Counted(Apply(w, step), id, Apply(w, step).calls[i])
  {
    hide Clashes, Overlap, Taken, Refused, Etag.CheckIfMatch, Etag.Tag, Answered, Verdict;
    if step.Load? && w.calls[i].edit.id == id { LoadMatches(w, id, i, step.read); }
  }

  /** Before a commit, nobody's increment has been answered with a 200. */
  lemma SameWins(w: World, step: Step, id: int)
    requires Enabled(w, step) && !step.Commit?
    ensures Wins(Apply(w, step), id) == Wins(w, id)
  {
  }

  lemma CommitCounts(w: World, i: nat, write: seq<Column>, id: int)
    requires i in w.calls && w.calls[i].stage.Loaded? && Counted(w, id, w.calls[i]) && id in w.rows
    ensures id in DoCommit(w, i, write).rows
    ensures DoCommit(w, i, write).rows[id].fields.party - w.rows[id].fields.party
      == |Wins(DoCommit(w, i, write), id)| - |Wins(w, id)|
  {
    hide Clashes, Overlap, Taken, Refused, Etag.CheckIfMatch, Etag.Tag;
    var t := DoCommit(w, i, write);
    if w.calls[i].edit.id == id && t.calls[i].stage.code == OK200 {
      WinsGrow(w, t, id, i);
    } else {
      WinsStay(w, t, id, i);
    }
  }

  lemma WinsGrow(w: World, t: World, id: int, i: nat)
    requires i in w.calls && !w.calls[i].stage.Replied? && w.calls[i].edit.id == id
    requires t.calls.Keys == w.calls.Keys && t.calls[i].edit == w.calls[i].edit
    requires t.calls[i].stage.Replied? && t.calls[i].stage.code == OK200
    requires forall j :: j in w.calls && j != i ==> t.calls[j] == w.calls[j]
    ensures |Wins(t, id)| == |Wins(w, id)| + 1
  {
    assert Wins(t, id) == Wins(w, id) + {i} && i !in Wins(w, id);
  }

  lemma WinsStay(w: World, t: World, id: int, i: nat)
    requires i in w.calls && !w.calls[i].stage.Replied?
    requires t.calls.Keys == w.calls.Keys && t.calls[i].edit == w.calls[i].edit
    requires w.calls[i].edit.id == id ==> !(t.calls[i].stage.Replied? && t.calls[i].stage.code == OK200)
    requires forall j :: j in w.calls && j != i ==> t.calls[j] == w.calls[j]
    ensures Wins(t, id) == Wins(w, id)
  {
  }

  lemma CountStepKeeps(w: World, step: Step, id: int, start: int)
    requires CountInv(w, id, start) && Enabled(w, step) && (step.Ask? ==> step.edit.id != id)
    ensures CountInv(Apply(w, step), id, start)
  {
    hide Clashes, Overlap, Taken, Refused, Etag.CheckIfMatch, Etag.Tag, Answered, Verdict, Counted, Wins, Edited;
    var t := Apply(w, step);
    if step.Commit? { CommitCounts(w, step.i, step.write, id); } else { SameWins(w, step, id); }
    forall j | j in t.calls ensures Counted(t, id, t.calls[j]) { CountedAfter(w, step, id, j); }
  }

  lemma {:induction false} CountRunKeeps(w: World, steps: seq<Step>, id: int, start: int)
    requires CountInv(w, id, start) && Run(w, steps) && OnlyIncrements(steps, id)
    ensures CountInv(After(w, steps), id, start)
    decreases |steps|
  {
    hide CountInv, Enabled, Apply;
    if steps != [] {
      CountStepKeeps(w, steps[0], id, start);
      CountRunKeeps(Apply(w, steps[0]), steps[1..], id, start);
    }
  }

  /** Clients that read, add one guest, send the version back and retry: whatever the schedule,
      the party ends at what it was plus one for each 200, and a client that has to retry has
      lost to a write that was committed after it read. */
  lemma IncrementsAddUp(w: World, steps: seq<Step>, id: int)
    requires Init(w) && id in w.rows && Run(w, steps) && OnlyIncrements(steps, id)
    ensures var t := After(w, steps);
      && id in t.rows && t.rows[id].fields.party == w.rows[id].fields.party + |Wins(t, id)|
      && forall i :: i in t.calls && t.calls[i].edit.id == id && MustRetry(t.calls[i].stage) ==>
           t.calls[i].seen.Some? && t.calls[i].seen.value.version < t.rows[id].version
  {
    hide Run, After, NoDoubleBooking;
    assert Wins(w, id) == {};
    CountRunKeeps(w, steps, id, w.rows[id].fields.party);
  }

  // ---- An edit that changes nothing ----

  /** A PATCH with nothing to write issues no UPDATE, so nothing checks the version: although
      another change has been committed since it loaded, it is answered with 200, and with the
      version conflict if and only if it has something to write. */
  lemma NoChangeIsNotChecked(w: World, id: int, e: Edit, other: int, read: seq<Column>, write: seq<Column>)
    requires Init(w) && id in w.rows && w.rows[id].fields.status == Confirmed
    requires 0 < other <= 20 && other != w.rows[id].fields.party
    requires e.id == id && e.header == Some(Etag.Tag(w.rows[id].version)) && e.required
    requires e.party.Some? ==> 0 < e.party.value <= 20
    ensures var r := w.rows[id];
      var changes := Patch(id, Some(Etag.Tag(r.version)), None, Some(other), None);
      var steps := [Ask(0, e), Ask(1, changes), Load(0, read), Load(1, read), Commit(1, write), Commit(0, write)];
      && Run(w, steps)
      && After(w, steps).calls.Keys == {0, 1}
      && After(w, steps).calls[1].stage == Replied(OK200, Some(Copy(r, read)), write)
      && After(w, steps).calls[0].stage
           == Replied(if ToWrite(e, Copy(r, read), write) then Stale409 else OK200, Some(Copy(r, read)), write)
      && id in After(w, steps).rows && After(w, steps).rows[id].fields == r.fields.(party := other)
  {
    hide NoDoubleBooking, Clashes, Overlap, Taken, Etag.CheckIfMatch, Etag.Tag, Run, After, Refused, Protocol.NetChange,
      Protocol.WriteName;
    var r := w.rows[id];
    var copy := Copy(r, read);
    Etag.TagMatchesItsVersion(r.version, r.version, true);
    var changes := Patch(id, Some(Etag.Tag(r.version)), None, Some(other), None);
    RefusedExactly(w.rows, changes, copy, write);
    assert ToWrite(changes, copy, write);
    hide ToWrite;
    var w1 := Apply(w, Ask(0, e));
    var w2 := Apply(w1, Ask(1, changes));
    var w3 := Apply(w2, Load(0, read));
    var w4 := Apply(w3, Load(1, read));
    var w5 := Apply(w4, Commit(1, write));
    var w6 := Apply(w5, Commit(0, write));
    assert w4.rows == w.rows && w4.calls[0].stage == Loaded(copy) && w4.calls[1].stage == Loaded(copy);
    assert w5.rows[id].fields == r.fields.(party := other) && w5.rows[id].version != r.version;
    assert w5.calls[1].stage == Replied(OK200, Some(copy), write);
    assert w6.rows == w5.rows;
    hide Apply, Enabled;
    Played([w, w1, w2, w3, w4, w5, w6],
      [Ask(0, e), Ask(1, changes), Load(0, read), Load(1, read), Commit(1, write), Commit(0, write)]);
  }

  predicate Follows(w: World, step: Step, t: World) {
    Enabled(w, step) && t == Apply(w, step)
  }

  lemma {:induction false} Played(ws: seq<World>, steps: seq<Step>)
    requires |ws| == |steps| + 1 && forall k :: 0 <= k < |steps| ==> Follows(ws[k], steps[k], ws[k + 1])
    ensures Run(ws[0], steps) && After(ws[0], steps) == ws[|steps|]
    decreases |steps|
  {
    hide Enabled, Apply;
    if steps != [] {
      assert Follows(ws[0], steps[0], ws[1]);
      Played(ws[1..], steps[1..]);
    }
  }
}
