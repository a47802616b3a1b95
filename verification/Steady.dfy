/** The traffic generator's own code: its slots, and its bookkeeping when it creates,
    reads and renames a booking. */
module Steady {
  import opened Booking

  /** What a call returns: nothing, a booking, or another status. */
  datatype Response = Lost | Fine(id: int, name: string, version: nat) | Failed(status: int)

  // ---- The slots it books ----

  const DAY := 24 * 60
  const HOUR := 60
  const LENGTH := 90

  /** `base + timedelta(days=slot // 10, hours=(slot % 10) * 2)`, for 90 minutes; in minutes. */
  function Slot(base: int, slot: nat): (w: Window) {
    var start := base + slot / 10 * DAY + slot % 10 * 2 * HOUR;
    Span(start, start + LENGTH)
  }

  /** Ten slots a day, two hours apart, of an hour and a half each. */
  lemma SlotTimes(base: int, slot: nat)
    ensures Slot(base, 0) == Span(base, base + 90)
    ensures slot % 10 < 9 ==> Slot(base, slot + 1) == Span(Slot(base, slot).start + 120, Slot(base, slot).end + 120)
    ensures Slot(base, slot + 10) == Span(Slot(base, slot).start + 1440, Slot(base, slot).end + 1440)
  {
  }

  /** No two slots overlap, so a booking in a new slot never clashes with an earlier one. */
  lemma SlotsAreDisjoint(base: int, a: nat, b: nat)
    requires a != b
    ensures !Overlap(Slot(base, a), Slot(base, b))
  {
    if a / 10 == b / 10 {
      assert a % 10 != b % 10;
    }
  }

  /** On a table where only the generator books, the next slot is always free. */
  lemma NextSlotIsFree(rows: Bookings, table: int, base: int, slot: nat)
    requires forall id :: id in rows && Live(rows[id]) && rows[id].table == table ==>
      exists k: nat :: 0 < k <= slot && rows[id].window == Slot(base, k)
    ensures !Taken(rows, table, Slot(base, slot + 1))
  {
    forall id | id in rows ensures !Clashes(rows[id], table, Slot(base, slot + 1)) {
      if Live(rows[id]) && rows[id].table == table {
        var k: nat :| 0 < k <= slot && rows[id].window == Slot(base, k);
        SlotsAreDisjoint(base, k, slot + 1);
      }
    }
  }

  // ---- Its bookkeeping ----

  predicate Conflict(r: Response) {
    r == Failed(409) || r == Failed(412)
  }

  /** The response the loop ends with: the first that is no conflict, or the last. */
  function Decided(patches: seq<Response>): Response
    requires patches != []
  {
    if |patches| == 1 || !Conflict(patches[0]) then patches[0] else Decided(patches[1..])
  }

  predicate Says(r: Response, name: string) {
    r.Fine? ==> r.name == name
  }

  /** How many conflicts come first: so many times the booking is read again. */
  function Conflicts(patches: seq<Response>): (n: nat)
    ensures n <= |patches|
  {
    if patches == [] || !Conflict(patches[0]) then 0 else 1 + Conflicts(patches[1..])
  }

  /** How many of the responses show another name. */
  function Wrong(rs: seq<Response>, name: string): nat {
    if rs == [] then 0 else Wrong(rs[..|rs| - 1], name) + if Says(rs[|rs| - 1], name) then 0 else 1
  }

  /** The version of the last response that had one. */
  function LastRead(version: nat, rs: seq<Response>): nat {
    if rs == [] then version
    else if rs[|rs| - 1].Fine? then rs[|rs| - 1].version else LastRead(version, rs[..|rs| - 1])
  }

  lemma {:induction false} ConflictsAre(patches: seq<Response>, n: nat)
    requires n <= |patches| && (n < |patches| ==> !Conflict(patches[n]))
    requires forall k :: 0 <= k < n ==> Conflict(patches[k])
    ensures Conflicts(patches) == n
    decreases |patches|
  {
    if n > 0 { ConflictsAre(patches[1..], n - 1); }
  }

  lemma OneMore(rs: seq<Response>, k: nat, name: string, version: nat)
    requires k < |rs|
    ensures Wrong(rs[..k + 1], name) == Wrong(rs[..k], name) + if Says(rs[k], name) then 0 else 1
    ensures LastRead(version, rs[..k + 1]) == if rs[k].Fine? then rs[k].version else LastRead(version, rs[..k])
  {
    assert rs[..k + 1][..k] == rs[..k];
  }

  class Generator {
    const base: int
    var expected: map<int, string>
    var version: map<int, nat>
    var slot: nat
    var bad: nat

    constructor (base: int)
      ensures Valid() && expected == map[] && slot == 0 && bad == 0
    {
      this.base, expected, version, slot, bad := base, map[], map[], 0, 0;
    }

    predicate Valid()
      reads this
    {
      expected.Keys == version.Keys
    }

    method CheckName(r: Response, want: string)
      requires r.Fine?
      modifies this`bad
      ensures bad == old(bad) + if r.name == want then 0 else 1
    {
      if r.name != want { bad := bad + 1; }
    }

    /** The window asked for is a new slot; a 201 is entered, anything else is not. */
    method Create(name: string, r: Response) returns (window: Window)
      requires Valid()
      modifies this
      ensures Valid() && slot == old(slot) + 1 && window == Slot(base, slot)
      ensures expected == if r.Fine? then old(expected)[r.id := name] else old(expected)
      ensures version == if r.Fine? then old(version)[r.id := r.version] else old(version)
      ensures bad == old(bad) + if Says(r, name) then 0 else 1
    {
      slot := slot + 1;
      var start := base + slot / 10 * DAY + slot % 10 * 2 * HOUR;
      window := Span(start, start + LENGTH);
      if r.Fine? {
        CheckName(r, name);
        expected := expected[r.id := name];
        version := version[r.id := r.version];
      }
    }

    method Read(rid: int, r: Response)
      requires Valid() && rid in expected
      modifies this`version, this`bad
      ensures Valid()
      ensures version == if r.Fine? then old(version)[rid := r.version] else old(version)
      ensures bad == old(bad) + if Says(r, expected[rid]) then 0 else 1
    {
      if r.Fine? {
        CheckName(r, expected[rid]);
        version := version[rid := r.version];
      }
    }

    /** Up to three PATCHes, reading again after each conflict; `sent` are the versions they
        carry.  The ledger changes exactly when the loop ends with a 200, and no name is found
        bad when every 200 says what it should. */
    method Rename(rid: int, name: string, patches: seq<Response>, rereads: seq<Response>) returns (sent: seq<nat>)
      requires Valid() && rid in expected && |patches| == 3 && |rereads| == 3
      modifies this`expected, this`version, this`bad
      ensures Valid()
      ensures expected == if Decided(patches).Fine? then old(expected)[rid := name] else old(expected)
      ensures 1 <= |sent| <= 3 && sent[0] == old(version)[rid]
      ensures forall k :: 0 <= k < |sent| - 1 ==>
        && (patches[k] == Failed(409) || patches[k] == Failed(412))
        && sent[k + 1] == if rereads[k].Fine? then rereads[k].version else sent[k]
      ensures |sent| < 3 ==> patches[|sent| - 1] != Failed(409) && patches[|sent| - 1] != Failed(412)
      ensures Decided(patches).Fine? ==> version == old(version)[rid := Decided(patches).version]
      ensures !Decided(patches).Fine? ==>
        version == old(version)[rid := LastRead(old(version)[rid], rereads[..Conflicts(patches)])]
      ensures bad == old(bad)
        + Wrong(rereads[..Conflicts(patches)], old(expected)[rid]) + Wrong([Decided(patches)], name)
    {
      sent := [];
      var r := patches[0];
      var i := 0;
      while i < 3
        invariant 0 <= i <= 3 && |sent| == i && Valid() && expected == old(expected)
        invariant i == 0 ==> version == old(version)
        invariant i > 0 ==> sent[0] == old(version)[rid]
        invariant forall k :: 0 <= k < i ==> Conflict(patches[k])
        invariant forall k :: 0 <= k < i - 1 ==> sent[k + 1] == if rereads[k].Fine? then rereads[k].version else sent[k]
        invariant i > 0 ==> version[rid] == if rereads[i - 1].Fine? then rereads[i - 1].version else sent[i - 1]
        invariant i > 0 ==> r == patches[i - 1]
        invariant bad == old(bad) + Wrong(rereads[..i], old(expected)[rid])
        invariant version == old(version)[rid := LastRead(old(version)[rid], rereads[..i])]
      {
        sent := sent + [version[rid]];
        r := patches[i];
        if !Conflict(r) { break; }
        OneMore(rereads, i, old(expected)[rid], old(version)[rid]);
        Read(rid, rereads[i]);
        i := i + 1;
      }
      DecidedIs(patches, if i < 3 then i else 2);
      ConflictsAre(patches, i);
      assert [Decided(patches)][..0] == [];
      if r.Fine? {
        CheckName(r, name);
        expected := expected[rid := name];
        version := version[rid := r.version];
      }
    }
  }

  lemma {:induction false} DecidedIs(patches: seq<Response>, k: nat)
    requires k < |patches| && forall j :: 0 <= j < k ==> Conflict(patches[j])
    requires k == |patches| - 1 || !Conflict(patches[k])
    ensures Decided(patches) == patches[k]
  {
    if k > 0 { DecidedIs(patches[1..], k - 1); }
  }
}
