/** The reservation service as it runs for one request at a time: the objects it
    changes, and how they relate to the step systems. */
module Service {
  import opened Names
  import opened Store
  import opened Migration
  import opened Booking
  import Protocol
  import Fidelity
  import Editing
  import Etag

  lemma NoneWritten(n: NameCols, full: string)
    ensures Protocol.WriteName(n, [], full) == n
  {
  }

  lemma OneMoreWritten(n: NameCols, columns: seq<Column>, c: Column, full: string)
    ensures Protocol.WriteName(n, columns + [c], full)
      == SetCell(Protocol.WriteName(n, columns, full), c, Protocol.ValueFor(full, c))
  {
  }

  /** The name columns of a loaded row, which write_name sets one by one. */
  class Row {
    var guest: Option<string>
    var first: Option<string>
    var last: Option<string>

    constructor (n: NameCols)
      ensures Columns() == n
    {
      guest, first, last := n.guest, n.first, n.last;
    }

    function Columns(): NameCols
      reads this
    {
      NameCols(guest, first, last)
    }

    /** setattr */
    method Set(c: Column, v: string)
      modifies this
      ensures Columns() == SetCell(old(Columns()), c, v)
    {
      match c {
        case GuestName => guest := Some(v);
        case FirstName => first := Some(v);
        case LastName => last := Some(v);
      }
    }

    method WriteName(phase: Phase, full: string)
      modifies this
      ensures Columns() == Protocol.WriteName(old(Columns()), WriteColumns(phase), full)
    {
      hide SplitGuestName, Protocol.WriteName;
      NoneWritten(Columns(), full);
      var parts := SplitGuestName(full);
      var columns := WriteColumns(phase);
      var i := 0;
      while i < |columns|
        invariant 0 <= i <= |columns|
        invariant Columns() == Protocol.WriteName(old(Columns()), columns[..i], full)
      {
        var c := columns[i];
        var value := match c
          case GuestName => full
          case FirstName => parts.first
          case LastName => parts.last;
        OneMoreWritten(old(Columns()), columns[..i], c, full);
        Set(c, value);
        assert columns[..i + 1] == columns[..i] + [c];
        i := i + 1;
      }
      assert columns[..i] == columns;
    }
  }

  /** After write_name in any phase, the columns the phase reads show the name as written,
      or as its split shows it, on a row of any earlier content. */
  lemma WrittenIsShown(n: NameCols, phase: Phase, full: string)
    ensures var t := Protocol.WriteName(n, WriteColumns(phase), full);
      && (GuestName in ReadColumns(phase) ==> t.guest == Some(full))
      && (FirstName in ReadColumns(phase) ==>
            ShownName(t) == Shown(SplitGuestName(full)) && Filled(t, SplitGuestName(full)))
  {
  }

  /** When a PATCH issues an UPDATE for the name `name`, over columns that hold `was`: in legacy
      for any other text, in dual_write and in read_new always, because they write columns they
      have not loaded, and in new_only only for another split. */
  lemma NameIsWritten(phase: Phase, n: NameCols, was: string, name: string)
    requires Fidelity.Content(ReadColumns(phase), n, was)
    ensures Protocol.NetChange(ReadColumns(phase), n, WriteColumns(phase), name) <==>
      match phase
      case LegacyPhase => was != name
      case DualWrite => true
      case ReadNew => true
      case NewOnly => SplitGuestName(was) != SplitGuestName(name)
  {
    hide SplitGuestName;
    var p, q := SplitGuestName(was), SplitGuestName(name);
    assert p == Parts(p.first, p.last) && q == Parts(q.first, q.last);
    assert FirstName in WriteColumns(NewOnly) && LastName in WriteColumns(NewOnly);
    assert FirstName in WriteColumns(DualWrite) && GuestName in WriteColumns(ReadNew);
    assert GuestName in WriteColumns(LegacyPhase);
    assert phase == NewOnly ==> Cell(n, FirstName) == Some(p.first) && Cell(n, LastName) == Some(p.last);
  }

  lemma WrittenIsContent(n: NameCols, phase: Phase, full: string)
    ensures Fidelity.Content(ReadColumns(phase), Protocol.WriteName(n, WriteColumns(phase), full), full)
    ensures forall c :: c !in WriteColumns(phase) ==>
      Cell(Protocol.WriteName(n, WriteColumns(phase), full), c) == Cell(n, c)
  {
    hide SplitGuestName;
  }

  function NewFields(name: string, party: int, phase: Phase): Editing.Fields {
    Editing.Fields(Protocol.WriteName(NoNames, WriteColumns(phase), name), party, Confirmed)
  }

  /** The reservations, the tables and the version counter. */
  class Desk {
    var rows: Editing.Resvs
    var clock: nat
    const spots: map<int, Spot>

    constructor (spots: map<int, Spot>)
      ensures Valid() && rows == map[] && this.spots == spots
    {
      this.spots, rows, clock := spots, map[], 0;
    }

    predicate Valid()
      reads this
    {
      NoDoubleBooking(Editing.Slots(rows)) && forall id :: id in rows ==> rows[id].version < clock
    }

    /** POST, with nobody else at work: 201 exactly for a bookable table that is free. */
    method Create(id: int, p: Payload, name: string, phase: Phase) returns (answer: Answer)
      requires Valid() && id !in rows
      modifies this
      ensures Valid()
      ensures answer == (
        if p.table !in spots then NotFound404
        else if !Bookable(spots[p.table], p) then BadRequest400
        else if Taken(Editing.Slots(old(rows)), p.table, p.window) then Conflict409
        else Created201(id))
      ensures answer.Created201? ==>
        && id in rows && rows == old(rows)[id := rows[id]]
        && rows[id].table == p.table && rows[id].window == p.window && rows[id].version == old(clock)
        && rows[id].fields.party == p.party && rows[id].fields.status == Confirmed
        && Fidelity.Content(ReadColumns(phase), rows[id].fields.names, name)
        && forall c :: c !in WriteColumns(phase) ==> Cell(rows[id].fields.names, c).None?
      ensures !answer.Created201? ==> rows == old(rows)
    {
      if p.table !in spots { return NotFound404; }
      var spot := spots[p.table];
      if spot.restaurant != p.restaurant { return BadRequest400; }
      if !spot.active { return BadRequest400; }
      if p.party > spot.capacity { return BadRequest400; }
      if Taken(Editing.Slots(rows), p.table, p.window) { return Conflict409; }
      ghost var before := Editing.Slots(rows);
      CommitKeepsApart(before, id, Booked(p.table, p.window, Confirmed));
      rows := rows[id := Editing.Resv(p.table, p.window, NewFields(name, p.party, phase), clock)];
      assert Editing.Slots(rows) == before[id := Booked(p.table, p.window, Confirmed)];
      clock := clock + 1;
      WrittenIsContent(NoNames, phase, name);
      return Created201(id);
    }

    /** PATCH or DELETE, with nobody else at work: never a 409; the row gets a new version exactly
        when the answer is 200 and party or status differ, or the name makes an UPDATE. */
    method Change(e: Editing.Edit, phase: Phase) returns (code: Editing.Code)
      requires Valid()
      modifies this
      ensures Valid()
      ensures code != Editing.Stale409
      ensures code == Editing.OK200 <==>
        && (e.party.Some? ==> 0 < e.party.value <= 20) && e.id in old(rows)
        && Etag.CheckIfMatch(e.header, old(rows)[e.id].version, e.required) == Etag.Pass
        && !Editing.Refused(old(rows), e.id, Editing.Edited(old(rows)[e.id].fields, e, WriteColumns(phase)))
      ensures code != Editing.OK200 ==> rows == old(rows)
      ensures code == Editing.Unprocessable422 <==> e.party.Some? && (e.party.value <= 0 || 20 < e.party.value)
      ensures code == Editing.Missing404 <==> code != Editing.Unprocessable422 && e.id !in old(rows)
      ensures code == Editing.Required428 ==> e.header.None? && e.required
      ensures code == Editing.Failed412 ==> e.header.Some?
      ensures code == Editing.Error500 ==>
        && e.status.Some? && e.status.value != Cancelled
        && e.id in old(rows) && old(rows)[e.id].fields.status == Cancelled
        && Taken(Editing.Slots(old(rows)), old(rows)[e.id].table, old(rows)[e.id].window)
      ensures code == Editing.OK200 ==>
        var was := old(rows)[e.id].fields;
        && rows.Keys == old(rows).Keys && rows[e.id].fields == Editing.Edited(was, e, WriteColumns(phase))
        && Editing.Carries(e, WriteColumns(phase), was, rows[e.id].fields)
        && (e.name.Some? ==> Fidelity.Content(ReadColumns(phase), rows[e.id].fields.names, e.name.value))
        && rows[e.id].table == old(rows)[e.id].table && rows[e.id].window == old(rows)[e.id].window
        && (if || rows[e.id].fields.party != was.party || rows[e.id].fields.status != was.status
               || (e.name.Some? && Protocol.NetChange(ReadColumns(phase), was.names, WriteColumns(phase), e.name.value))
            then rows[e.id].version == old(clock) else rows == old(rows))
        && forall id :: id in rows && id != e.id ==> rows[id] == old(rows)[id]
    {
      hide Protocol.NetChange, Protocol.WriteName, Editing.Carries, Fidelity.Content;
      if e.party.Some? && !(0 < e.party.value <= 20) { return Editing.Unprocessable422; }
      if e.id !in rows { return Editing.Missing404; }
      var row := rows[e.id];
      if e.header.Some? { Etag.CheckMeans(e.header.value, row.version, e.required); }
      hide Etag.Mentions;
      match Etag.CheckIfMatch(e.header, row.version, e.required) {
        case Required428 => return Editing.Required428;
        case Failed412 => return Editing.Failed412;
        case Pass =>
      }
      var fields := Editing.Edited(row.fields, e, WriteColumns(phase));
      Editing.EditedCarries(row.fields, e, WriteColumns(phase));
      if e.name.Some? { WrittenIsContent(row.fields.names, phase, e.name.value); }
      if !Editing.ToWrite(e, Editing.Copy(row, ReadColumns(phase)), WriteColumns(phase)) {
        Editing.NothingCarries(e, Editing.Copy(row, ReadColumns(phase)), WriteColumns(phase));
        LiveIsNotRefused(rows, e.id, row.fields);
        return Editing.OK200;
      }
      Editing.RefusedExactly(rows, e, Editing.Copy(row, ReadColumns(phase)), WriteColumns(phase));
      if Editing.Refused(rows, e.id, fields) { return Editing.Error500; }
      Editing.EditKeepsApart(rows, e.id, fields, clock);
      rows := rows[e.id := row.(fields := fields, version := clock)];
      clock := clock + 1;
      return Editing.OK200;
    }
  }

  /** A row as it is never offends the constraint it was stored under. */
  lemma LiveIsNotRefused(rows: Editing.Resvs, id: int, f: Editing.Fields)
    requires NoDoubleBooking(Editing.Slots(rows)) && id in rows && f.status == rows[id].fields.status
    ensures !Editing.Refused(rows, id, f)
  {
    hide Overlap;
    var s := Editing.Slots(rows);
    forall j | f.status != Cancelled && j in rows && j != id ensures !Clashes(s[j], rows[id].table, rows[id].window) {
      assert j in s && id in s && Live(s[id]);
    }
  }
}
