/** The backfill script: keyset batches over the rows that still have no
    first_name, while the API keeps writing both representations. */
module Backfill {
  import opened Names
  import opened Store
  import Migration

  const MAX_PASSES := 5

  /** What happens between two batches: rows other transactions hold when the
      batch selects, and names committed before it by dual-writing requests, to
      old rows or new ones. */
  datatype Traffic = Traffic(locked: set<int>, writes: map<int, string>)

  const Silence := Traffic({}, map[])

  // ---- Specification ----

  function NamesOf(rows: Table): map<int, NameCols> {
    map id | id in rows :: rows[id].names
  }

  /** The bulk update the script stands for: rows between the two ids whose
      first_name is NULL get the split of their guest_name. */
  function FillNames(n: NameCols): NameCols {
    var p := SplitGuestName(OrEmpty(n.guest));
    if n.first.None? then n.(first := Some(p.first), last := Some(p.last)) else n
  }

  function FillBetween(names: map<int, NameCols>, lo: int, hi: int): map<int, NameCols> {
    map id | id in names :: if lo < id <= hi then FillNames(names[id]) else names[id]
  }

  function FillAfter(names: map<int, NameCols>, lo: int): map<int, NameCols> {
    map id | id in names :: if lo < id then FillNames(names[id]) else names[id]
  }

  /** A pass killed at a committed checkpoint and resumed there does what one
      pass would have done. */
  lemma ResumeEqualsOnePass(names: map<int, NameCols>, startAfter: int, checkpoint: int)
    requires startAfter <= checkpoint
    ensures FillAfter(FillBetween(names, startAfter, checkpoint), checkpoint) == FillAfter(names, startAfter)
  {
  }

  lemma BetweenInTwo(names: map<int, NameCols>, lo: int, mid: int, hi: int)
    requires lo <= mid <= hi
    ensures FillBetween(FillBetween(names, lo, mid), mid, hi) == FillBetween(names, lo, hi)
  {
  }

  /** Passes may also be repeated: a filled row is never written again. */
  lemma FillTwice(names: map<int, NameCols>, a: int, b: int)
    requires b <= a
    ensures FillAfter(FillAfter(names, a), b) == FillAfter(names, b)
  {
  }

  // ---- Rows ----

  /** Rows a batch may take after the cursor. */
  function Eligible(rows: Table, after: int, locked: set<int>): set<int> {
    set id | id in rows && after < id && rows[id].names.first.None? && id !in locked
  }

  predicate Ascending(ids: seq<int>) {
    forall i, j :: 0 <= i < j < |ids| ==> ids[i] < ids[j]
  }

  function FillIds(rows: Table, ids: set<int>, version: nat): Table {
    map id | id in rows ::
      if id in ids && rows[id].names.first.None? then Row(FillNames(rows[id].names), version) else rows[id]
  }

  function DualWrite(rows: Table, writes: map<int, string>, version: nat): Table {
    map id | id in rows.Keys + writes.Keys ::
      if id in writes then
        var p := SplitGuestName(writes[id]);
        Row(NameCols(Some(writes[id]), Some(p.first), Some(p.last)), version)
      else rows[id]
  }

  lemma Inhabited(ids: set<int>)
    requires ids != {}
    ensures exists id :: id in ids
  {
    if forall id :: id !in ids { assert false; }
  }

  /** Filling awaiting rows takes exactly them off the list. */
  lemma FillIdsAwaiting(rows: Table, ids: set<int>, version: nat)
    requires ids <= Awaiting(rows)
    ensures Awaiting(FillIds(rows, ids, version)) == Awaiting(rows) - ids
    ensures FillIds(rows, ids, version).Keys == rows.Keys
  {
    hide SplitGuestName;
    var filled := FillIds(rows, ids, version);
    forall id | id in rows ensures id in Awaiting(filled) <==> id in Awaiting(rows) - ids {}
  }

  lemma EligibleAwaits(rows: Table, after: int, locked: set<int>)
    ensures Eligible(rows, after, locked) <= Awaiting(rows) <= rows.Keys
  {
  }

  lemma FillOneMore(rows: Table, ids: set<int>, id: int, version: nat)
    requires id in Awaiting(rows) && id !in ids
    ensures FillIds(rows, ids + {id}, version)
         == FillIds(rows, ids, version)[id := Row(FillNames(rows[id].names), version)]
    ensures id in FillIds(rows, ids, version) && FillIds(rows, ids, version)[id] == rows[id]
  {
  }

  predicate AllAgree(rows: Table) {
    forall id :: id in rows ==> Agrees(rows[id].names)
  }

  lemma FillAgrees(rows: Table, ids: set<int>, version: nat)
    requires AllAgree(rows)
    ensures AllAgree(FillIds(rows, ids, version))
  {
  }

  lemma DualWriteAgrees(rows: Table, writes: map<int, string>, version: nat)
    requires AllAgree(rows)
    ensures AllAgree(DualWrite(rows, writes, version))
  {
  }

  /** ORDER BY id LIMIT n: the smallest n of the candidates. */
  method SmallestIds(candidates: set<int>, limit: nat) returns (ids: seq<int>)
    ensures Ascending(ids) && |ids| <= limit
    ensures forall i :: 0 <= i < |ids| ==> ids[i] in candidates
    ensures forall id, i :: id in candidates && id !in ids && 0 <= i < |ids| ==> ids[i] < id
    ensures |ids| < limit ==> forall id :: id in candidates ==> id in ids
  {
    ids := [];
    var rest := candidates;
    while rest != {} && |ids| < limit
      invariant |ids| <= limit && Ascending(ids)
      invariant rest <= candidates
      invariant forall id :: id in candidates ==> id in rest || id in ids
      invariant forall i :: 0 <= i < |ids| ==> ids[i] in candidates
      invariant forall id, i :: id in rest && 0 <= i < |ids| ==> ids[i] < id
      decreases rest
    {
      Inhabited(rest);
      var least :| least in rest;
      var others := rest - {least};
      while others != {}
        invariant least in rest && others <= rest
        invariant forall id :: id in rest && id !in others ==> least <= id
        decreases others
      {
        Inhabited(others);
        var id :| id in others;
        if id < least { least := id; }
        others := others - {id};
      }
      ids := ids + [least];
      rest := rest - {least};
    }
  }

  function Elements(ids: seq<int>): set<int> {
    set id | id in ids
  }

  function Ids(params: seq<(int, Parts)>): set<int> {
    set i | 0 <= i < |params| :: params[i].0
  }

  lemma {:induction false} DistinctIds(params: seq<(int, Parts)>)
    requires forall i, j :: 0 <= i < j < |params| ==> params[i].0 < params[j].0
    ensures |Ids(params)| == |params|
  {
    if params != [] {
      var n := |params| - 1;
      DistinctIds(params[..n]);
      assert Ids(params) == Ids(params[..n]) + {params[n].0} by {
        assert params == params[..n] + [params[n]];
      }
      assert params[n].0 !in Ids(params[..n]);
    }
  }

  lemma FillNone(rows: Table, version: nat)
    ensures rows == FillIds(rows, {}, version)
  {
  }

  lemma AwaitingRow(rows: Table, id: int)
    requires id in Awaiting(rows)
    ensures id in rows && rows[id].names.first.None?
  {
  }

  lemma FillNothing(names: map<int, NameCols>, lo: int)
    ensures FillBetween(names, lo, lo) == names
  {
  }

  lemma FewerEligible(before: Table, rows: Table, after: int)
    requires Awaiting(rows) <= Awaiting(before)
    ensures |Eligible(rows, after, {})| <= |Eligible(before, after, {})|
  {
    forall id | id in Eligible(rows, after, {}) ensures id in Eligible(before, after, {}) {
      assert id in Awaiting(rows);
    }
    Smaller(Eligible(rows, after, {}), Eligible(before, after, {}));
  }

  lemma Smaller(a: set<int>, b: set<int>)
    requires a <= b
    ensures |a| <= |b|
  {
    assert b == a + (b - a);
  }

  lemma NothingEligible(rows: Table, after: int)
    requires Eligible(rows, after, {}) == {}
    ensures FillAfter(NamesOf(rows), after) == NamesOf(rows)
  {
    hide SplitGuestName;
    forall id | id in rows && after < id ensures rows[id].names.first.Some? {
      assert id !in Eligible(rows, after, {});
    }
  }

  /** The cursor moves past the batch, and fewer rows lie ahead of it. */
  lemma CursorMoves(rows: Table, ids: seq<int>, after: int, locked: set<int>, version: nat)
    requires ids != [] && Elements(ids) <= Eligible(rows, after, locked)
    ensures var last := ids[|ids| - 1];
      && after < last
      && |Eligible(FillIds(rows, Elements(ids), version), last, {})| < |Eligible(rows, after, {})|
  {
    hide SplitGuestName;
    var last := ids[|ids| - 1];
    assert last in Elements(ids);
    var ahead, then_ := Eligible(rows, after, {}), Eligible(FillIds(rows, Elements(ids), version), last, {});
    assert then_ <= ahead - {last};
    Smaller(then_, ahead - {last});
  }

  /** A batch that skipped nothing fills everything up to its last id. */
  lemma BatchIsBetween(rows: Table, ids: seq<int>, after: int, version: nat)
    requires ids != [] && Ascending(ids) && Elements(ids) <= Eligible(rows, after, {})
    requires forall id, i :: id in Eligible(rows, after, {}) && id !in ids && 0 <= i < |ids| ==> ids[i] < id
    ensures NamesOf(FillIds(rows, Elements(ids), version)) == FillBetween(NamesOf(rows), after, ids[|ids| - 1])
  {
    hide SplitGuestName;
    var last := ids[|ids| - 1];
    forall id | id in rows
      ensures id in Elements(ids) <==> after < id <= last && rows[id].names.first.None?
    {
      if id in ids {
        assert id in Eligible(rows, after, {});
      } else if after < id <= last && rows[id].names.first.None? {
        assert false;
      }
    }
    hide FillNames;
    FillNamesFilled();
  }

  lemma FillNamesFilled()
    ensures forall n: NameCols :: n.first.Some? ==> FillNames(n) == n
  {
  }

  predicate Positive(rows: Table) {
    forall id :: id in rows ==> id > 0
  }

  lemma EligibleFits(rows: Table, after: int)
    ensures |Eligible(rows, after, {})| <= |rows|
  {
    Smaller(Eligible(rows, after, {}), rows.Keys);
  }

  lemma SetCount(initial: set<int>, a: set<int>, b: set<int>, t: set<int>)
    requires a <= b && b !! t && b + t <= initial
    ensures |initial - a - t| == |b| - |a| + |initial - b - t|
  {
  }

  lemma Account(initial: set<int>, a: set<int>, t: set<int>)
    requires a !! t && a + t <= initial
    ensures |initial| == |a| + |t| + |initial - a - t|
  {
  }

  /** What a finished quiet pass leaves awaiting. */
  lemma QuietPass(was: Table, rows: Table, start: int)
    requires NamesOf(rows) == FillAfter(NamesOf(was), start)
    ensures Eligible(was, start, {}) <= Awaiting(was)
    ensures Awaiting(rows) == Awaiting(was) - Eligible(was, start, {})
    ensures |Awaiting(was)| == |Eligible(was, start, {})| + |Awaiting(rows)|
    ensures Awaiting(rows) == {} <==> |Awaiting(rows)| == 0
  {
    hide SplitGuestName;
    SameKeys(was, rows, start);
    forall id | id in was
      ensures id in rows && (rows[id].names.first.None? <==> was[id].names.first.None? && id <= start)
    {
      assert NamesOf(rows)[id] == FillAfter(NamesOf(was), start)[id];
    }
    assert Awaiting(was) == Eligible(was, start, {}) + Awaiting(rows);
  }

  lemma SameKeys(was: Table, rows: Table, start: int)
    requires NamesOf(rows) == FillAfter(NamesOf(was), start)
    ensures rows.Keys == was.Keys
  {
    hide FillNames;
    assert NamesOf(rows).Keys == rows.Keys && NamesOf(was).Keys == was.Keys;
  }

  lemma FirstPass(was: Table, rows: Table, start: int)
    requires NamesOf(rows) == FillAfter(NamesOf(was), start) && Positive(was)
    ensures start <= 0 ==> Awaiting(rows) == {}
    ensures Awaiting(rows) == {} ==> NamesOf(rows) == FillAfter(NamesOf(was), 0)
  {
    QuietPass(was, rows, start);
    SameKeys(was, rows, start);
    hide SplitGuestName;
    if start <= 0 {
      assert Awaiting(rows) == {};
      assert FillAfter(NamesOf(was), start) == FillAfter(NamesOf(was), 0);
    } else if Awaiting(rows) == {} {
      FillTwice(NamesOf(was), start, 0);
      assert Eligible(rows, 0, {}) <= Awaiting(rows);
      NothingEligible(rows, 0);
    }
  }

  lemma SecondPass(first: Table, was: Table, rows: Table, start: int)
    requires NamesOf(was) == FillAfter(NamesOf(first), start) && start > 0 && Positive(first)
    requires NamesOf(rows) == FillAfter(NamesOf(was), 0)
    ensures NamesOf(rows) == FillAfter(NamesOf(first), 0) && Awaiting(rows) == {}
  {
    FillTwice(NamesOf(first), start, 0);
    hide SplitGuestName;
    SameKeys(first, was, start);
    FirstPass(was, rows, 0);
  }

  /** The first pass from `startAfter`, or the second from the beginning. */
  lemma AnyPass(first: Table, was: Table, rows: Table, startAfter: int, start: int, passes: nat)
    requires Positive(first) && NamesOf(rows) == FillAfter(NamesOf(was), start)
    requires if passes == 1 then was == first && start == startAfter
             else NamesOf(was) == FillAfter(NamesOf(first), startAfter) && startAfter > 0 && start == 0
    ensures |Awaiting(was)| == |Eligible(was, start, {})| + |Awaiting(rows)|
    ensures Eligible(was, start, {}) == {} <==> |Eligible(was, start, {})| == 0
    ensures Awaiting(rows) == {} <==> |Awaiting(rows)| == 0
    ensures Awaiting(was) == {} ==> Awaiting(rows) == {}
    ensures start <= 0 ==> Awaiting(rows) == {}
    ensures Awaiting(rows) == {} ==> NamesOf(rows) == FillAfter(NamesOf(first), 0)
    ensures Awaiting(rows) == {} ==> Awaiting(was) == Eligible(was, start, {})
  {
    hide Awaiting, Eligible, NamesOf, FillAfter, Positive;
    QuietPass(was, rows, start);
    if passes == 1 { FirstPass(was, rows, start); } else { SecondPass(first, was, rows, startAfter); }
  }

  /** Locked by somebody else when some batch of these turns came by. */
  predicate WasLocked(traffic: nat -> Traffic, from: nat, to: nat, id: int) {
    exists k :: from <= k < to && id in traffic(k).locked
  }

  /** The rows awaiting between the two ids have been locked in these turns. */
  predicate OnlyLocked(rows: Table, traffic: nat -> Traffic, from: nat, to: nat, after: int, cursor: int) {
    forall id :: id in Awaiting(rows) && after < id <= cursor ==> WasLocked(traffic, from, to, id)
  }

  /** The same for all rows behind the first id. */
  predicate LeavesLocked(rows: Table, traffic: nat -> Traffic, from: nat, to: nat, after: int) {
    forall id :: id in Awaiting(rows) && after < id ==> WasLocked(traffic, from, to, id)
  }

  /** Behind the cursor a batch leaves only rows that were locked. */
  lemma BatchPasses(was: Table, now: Table, ids: seq<int>, after: int, locked: set<int>, limit: nat, version: nat)
    requires limit > 0 && Elements(ids) <= Eligible(was, after, locked)
    requires forall id, i :: id in Eligible(was, after, locked) && id !in ids && 0 <= i < |ids| ==> ids[i] < id
    requires |ids| < limit ==> Elements(ids) == Eligible(was, after, locked)
    requires now == if ids == [] then was else FillIds(was, Elements(ids), version)
    ensures Awaiting(now) <= Awaiting(was)
    ensures forall id :: id in Awaiting(now) && after < id && (ids == [] || id <= ids[|ids| - 1]) ==> id in locked
  {
    hide SplitGuestName;
    forall id | id in Awaiting(now) ensures id in Awaiting(was) && id !in ids {
      assert id in ids <==> id in Elements(ids);
    }
    forall id | id in Awaiting(now) && after < id && (ids == [] || id <= ids[|ids| - 1]) ensures id in locked {
      assert id in locked || id in Eligible(was, after, locked);
    }
  }

  lemma CursorLeavesLocked(before: Table, was: Table, now: Table, ids: seq<int>, start: int, cursor: int,
    traffic: nat -> Traffic, from: nat, to: nat, limit: nat, version: nat)
    requires limit > 0 && from <= to && OnlyLocked(before, traffic, from, to, start, cursor) && start <= cursor
    requires Awaiting(was) <= Awaiting(before)
    requires Elements(ids) <= Eligible(was, cursor, traffic(to).locked)
    requires forall id, i :: id in Eligible(was, cursor, traffic(to).locked) && id !in ids && 0 <= i < |ids| ==>
      ids[i] < id
    requires |ids| < limit ==> Elements(ids) == Eligible(was, cursor, traffic(to).locked)
    requires now == if ids == [] then was else FillIds(was, Elements(ids), version)
    ensures if ids == [] then LeavesLocked(now, traffic, from, to + 1, start)
            else OnlyLocked(now, traffic, from, to + 1, start, ids[|ids| - 1])
  {
    BatchPasses(was, now, ids, cursor, traffic(to).locked, limit, version);
    hide Awaiting, Eligible, FillIds, Elements;
    forall id | id in Awaiting(now) && start < id && (ids == [] || id <= ids[|ids| - 1])
      ensures WasLocked(traffic, from, to + 1, id)
    {
      if id <= cursor {
        assert id in Awaiting(before) && WasLocked(traffic, from, to, id);
      } else {
        assert id in traffic(to).locked;
      }
    }
  }

  /** The job and the table it works on. */
  class Job {
    var rows: Table
    var clock: nat
    var turn: nat
    const traffic: nat -> Traffic

    // The account: which of the rows awaiting at the start were filled by whom.
    ghost const initial: set<int>
    ghost var byRun: set<int>
    ghost var byTraffic: set<int>

    ghost predicate Valid()
      reads this
    {
      && byRun !! byTraffic && byRun + byTraffic <= initial
      && Awaiting(rows) == initial - byRun - byTraffic
      && initial <= rows.Keys
    }

    /** Nothing locked and nothing written for the rest of the job. */
    ghost predicate Quiet()
      reads this
    {
      forall k :: turn <= k ==> traffic(k) == Silence
    }

    constructor (rows: Table, clock: nat, traffic: nat -> Traffic)
      ensures Valid() && this.rows == rows && this.traffic == traffic && turn == 0
      ensures initial == Awaiting(rows) && byRun == {} && byTraffic == {}
    {
      this.rows, this.clock, this.turn := rows, clock, 0;
      this.traffic := traffic;
      initial, byRun, byTraffic := Awaiting(rows), {}, {};
    }

    /** Commits the writes that arrived before this batch. */
    method Arrivals() returns (locked: set<int>)
      requires Valid()
      modifies this
      ensures Valid() && byRun == old(byRun) && turn == old(turn) + 1
      ensures rows == DualWrite(old(rows), traffic(old(turn)).writes, old(clock)) && locked == traffic(old(turn)).locked
      ensures byTraffic == old(byTraffic) + old(Awaiting(rows)) * traffic(old(turn)).writes.Keys
      ensures Awaiting(rows) <= old(Awaiting(rows))
      ensures old(Quiet()) ==> Quiet() && locked == {} && byTraffic == old(byTraffic)
      ensures old(Quiet()) ==> NamesOf(rows) == NamesOf(old(rows))
    {
      var t := traffic(turn);
      hide SplitGuestName;
      byTraffic := byTraffic + (Awaiting(rows) * t.writes.Keys);
      rows := DualWrite(rows, t.writes, clock);
      clock := clock + 1;
      turn := turn + 1;
      locked := t.locked;
      assert Awaiting(rows) == old(Awaiting(rows)) - t.writes.Keys;
    }

    /** FILL for every row of a batch: an UPDATE guarded by first_name IS NULL. */
    method ExecuteFill(params: seq<(int, Parts)>) returns (rowcount: nat)
      requires Valid()
      requires forall i :: 0 <= i < |params| ==> params[i].0 in Awaiting(rows)
      requires forall i :: 0 <= i < |params| && params[i].0 in rows ==>
        params[i].1 == SplitGuestName(OrEmpty(rows[params[i].0].names.guest))
      requires forall i, j :: 0 <= i < j < |params| ==> params[i].0 < params[j].0
      modifies this
      ensures rows == FillIds(old(rows), Ids(params), old(clock)) && clock == old(clock) + 1
      ensures byRun == old(byRun) + Ids(params) && |byRun| == |old(byRun)| + |params|
      ensures Valid() && rowcount == |params|
      ensures turn == old(turn) && byTraffic == old(byTraffic)
    {
      hide SplitGuestName, FillIds, Awaiting;
      ghost var before, ids := rows, Ids(params);
      rowcount := UpdateRows(params);
      clock := clock + 1;
      assert ids <= Awaiting(before);
      FillIdsAwaiting(before, ids, old(clock));
      DistinctIds(params);
      byRun := byRun + ids;
    }

    method UpdateRows(params: seq<(int, Parts)>) returns (rowcount: nat)
      requires forall i :: 0 <= i < |params| ==> params[i].0 in Awaiting(rows)
      requires forall i :: 0 <= i < |params| && params[i].0 in rows ==>
        params[i].1 == SplitGuestName(OrEmpty(rows[params[i].0].names.guest))
      requires forall i, j :: 0 <= i < j < |params| ==> params[i].0 < params[j].0
      modifies this`rows
      ensures rows == FillIds(old(rows), Ids(params), clock) && rowcount == |params|
    {
      hide SplitGuestName, FillIds, Awaiting;
      rowcount := 0;
      ghost var before := rows;
      FillNone(before, clock);
      assert Ids(params[..0]) == {};
      for i := 0 to |params|
        invariant rows == FillIds(before, Ids(params[..i]), clock)
        invariant rowcount == i
      {
        var (id, p) := params[i];
        AwaitingRow(before, id);
        FillOneMore(before, Ids(params[..i]), id, clock);
        assert Ids(params[..i + 1]) == Ids(params[..i]) + {id} by {
          assert params[..i + 1] == params[..i] + [params[i]];
        }
        if rows[id].names.first.None? {
          rows := rows[id := Row(rows[id].names.(first := Some(p.first), last := Some(p.last)), clock)];
          rowcount := rowcount + 1;
        }
      }
      assert params[..|params|] == params;
    }

    /** The parameters of the batch's UPDATEs. */
    method SplitAll(ids: seq<int>) returns (params: seq<(int, Parts)>)
      requires Elements(ids) <= rows.Keys
      ensures |params| == |ids| && Ids(params) == Elements(ids)
      ensures forall j :: 0 <= j < |ids| ==>
        params[j].0 == ids[j] && ids[j] in rows && params[j].1 == SplitGuestName(OrEmpty(rows[ids[j]].names.guest))
    {
      hide SplitGuestName;
      params := [];
      for i := 0 to |ids|
        invariant |params| == i
        invariant forall j :: 0 <= j < i ==>
          params[j].0 == ids[j] && ids[j] in rows && params[j].1 == SplitGuestName(OrEmpty(rows[ids[j]].names.guest))
      {
        assert ids[i] in Elements(ids);
        params := params + [(ids[i], SplitGuestName(OrEmpty(rows[ids[i]].names.guest)))];
      }
      SameIds(params, ids);
    }

    /** One batch: select, split, fill, commit. */
    method Batch(after: int, limit: nat, locked: set<int>) returns (ids: seq<int>, rowcount: nat)
      requires Valid()
      modifies this
      ensures Valid() && turn == old(turn) && byTraffic == old(byTraffic)
      ensures Ascending(ids) && |ids| <= limit && rowcount == |ids| == |byRun| - |old(byRun)|
      ensures byRun == old(byRun) + Elements(ids)
      ensures Elements(ids) <= Eligible(old(rows), after, locked)
      ensures forall id, i :: id in Eligible(old(rows), after, locked) && id !in ids && 0 <= i < |ids| ==> ids[i] < id
      ensures |ids| < limit ==> Elements(ids) == Eligible(old(rows), after, locked)
      ensures rows == if ids == [] then old(rows) else FillIds(old(rows), Elements(ids), old(clock))
    {
      hide SplitGuestName, FillIds, Awaiting;
      EligibleAwaits(rows, after, locked);
      ids := SmallestIds(Eligible(rows, after, locked), limit);
      assert Elements(ids) <= Eligible(rows, after, locked);
      hide Eligible;
      if ids == [] { return ids, 0; }
      var params := SplitAll(ids);
      rowcount := ExecuteFill(params);
    }

    /** What arrives before a batch, and the batch; `start` and `from` say where and when the pass
        began. */
    method NextBatch(cursor: int, limit: nat, ghost start: int, ghost from: nat) returns (ids: seq<int>, n: nat)
      requires Valid() && from <= turn && start <= cursor
      requires limit > 0 ==> OnlyLocked(rows, traffic, from, turn, start, cursor)
      modifies this
      ensures Valid() && byRun >= old(byRun) && byTraffic >= old(byTraffic) && turn == old(turn) + 1
      ensures n == |byRun| - |old(byRun)| && (ids == [] ==> n == 0) && (ids != [] ==> cursor < ids[|ids| - 1])
      ensures ids != [] ==> 1 + |Eligible(rows, ids[|ids| - 1], {})| <= |Eligible(old(rows), cursor, {})|
      ensures limit > 0 ==>
        if ids == [] then LeavesLocked(rows, traffic, from, turn, start)
        else OnlyLocked(rows, traffic, from, turn, start, ids[|ids| - 1])
      ensures old(AllAgree(rows)) ==> AllAgree(rows)
      ensures old(Quiet()) ==> Quiet() && byTraffic == old(byTraffic)
      ensures old(Quiet()) && limit > 0 && ids == [] ==> NamesOf(rows) == FillAfter(NamesOf(old(rows)), cursor)
      ensures old(Quiet()) && limit > 0 && ids != [] ==>
        NamesOf(rows) == FillBetween(NamesOf(old(rows)), cursor, ids[|ids| - 1])
    {
      hide SplitGuestName, FillIds, FillNames, NamesOf, Awaiting, Eligible, AllAgree, DualWrite, LeavesLocked,
        OnlyLocked;
      if AllAgree(rows) { DualWriteAgrees(rows, traffic(turn).writes, clock); }
      var locked := Arrivals();
      FewerEligible(old(rows), rows, cursor);
      ghost var seen, version := rows, clock;
      ids, n := Batch(cursor, limit, locked);
      if AllAgree(seen) { FillAgrees(seen, Elements(ids), version); }
      if limit > 0 {
        CursorLeavesLocked(old(rows), seen, rows, ids, start, cursor, traffic, from, turn - 1, limit, version);
      }
      if ids == [] {
        if old(Quiet()) && limit > 0 { NothingEligible(rows, cursor); }
      } else {
        CursorMoves(seen, ids, cursor, locked, version);
        if old(Quiet()) && limit > 0 { BatchIsBetween(seen, ids, cursor, version); }
      }
    }

    /** One pass from `startAfter` to the end, or until it is killed after
        `patience` batches.  `lastId` is the printed checkpoint. */
    method RunPass(startAfter: int, limit: nat, patience: nat) returns (filled: nat, lastId: int, finished: bool)
      requires Valid()
      modifies this
      ensures Valid() && byRun >= old(byRun) && byTraffic >= old(byTraffic)
      ensures filled == |byRun| - |old(byRun)| && startAfter <= lastId
      ensures patience > |Eligible(old(rows), startAfter, {})| ==> finished
      ensures patience > 0 ==> turn > old(turn)
      ensures limit > 0 && finished ==> LeavesLocked(rows, traffic, old(turn), turn, startAfter)
      ensures old(AllAgree(rows)) ==> AllAgree(rows)
      ensures old(Quiet()) ==> Quiet() && byTraffic == old(byTraffic)
      ensures old(Quiet()) && limit > 0 && finished ==> NamesOf(rows) == FillAfter(NamesOf(old(rows)), startAfter)
      ensures old(Quiet()) && limit > 0 && !finished ==>
        NamesOf(rows) == FillBetween(NamesOf(old(rows)), startAfter, lastId)
    {
      hide SplitGuestName, FillIds, FillNames, NamesOf, Awaiting, Eligible, AllAgree, DualWrite, LeavesLocked;
      assert OnlyLocked(rows, traffic, turn, turn, startAfter, startAfter);
      hide OnlyLocked;
      lastId, filled, finished := startAfter, 0, false;
      ghost var before := NamesOf(rows);
      var batches := 0;
      FillNothing(before, startAfter);
      while batches < patience && !finished
        invariant Valid() && byRun >= old(byRun) && byTraffic >= old(byTraffic)
        invariant filled == |byRun| - |old(byRun)| && startAfter <= lastId
        invariant batches <= patience && turn == old(turn) + batches
        invariant finished ==> batches > 0
        invariant limit > 0 && !finished ==> OnlyLocked(rows, traffic, old(turn), turn, startAfter, lastId)
        invariant limit > 0 && finished ==> LeavesLocked(rows, traffic, old(turn), turn, startAfter)
        invariant old(AllAgree(rows)) ==> AllAgree(rows)
        invariant !finished ==> batches + |Eligible(rows, lastId, {})| <= |Eligible(old(rows), startAfter, {})|
        invariant old(Quiet()) ==> Quiet() && byTraffic == old(byTraffic)
        invariant old(Quiet()) && limit > 0 && finished ==> NamesOf(rows) == FillAfter(before, startAfter)
        invariant old(Quiet()) && limit > 0 && !finished ==>
          NamesOf(rows) == FillBetween(before, startAfter, lastId)
      {
        var ids, n := NextBatch(lastId, limit, startAfter, old(turn));
        batches := batches + 1;
        if ids == [] {
          finished := true;
          ResumeEqualsOnePass(before, startAfter, lastId);
        } else {
          BetweenInTwo(before, startAfter, lastId, ids[|ids| - 1]);
          filled := filled + n;
          lastId := ids[|ids| - 1];
        }
      }
    }

    /** One whole pass, and the count behind it. */
    method PassAndCount(start: int, limit: nat) returns (filled: nat, left: nat)
      requires Valid()
      modifies this
      ensures Valid() && byRun >= old(byRun) && byTraffic >= old(byTraffic)
      ensures filled == |byRun| - |old(byRun)| && left == |Awaiting(rows)|
      ensures old(AllAgree(rows)) ==> AllAgree(rows)
      ensures turn > old(turn)
      ensures limit > 0 ==> LeavesLocked(rows, traffic, old(turn), turn, start)
      ensures old(Quiet()) ==> Quiet() && byTraffic == old(byTraffic) && |old(Awaiting(rows))| == filled + left
      ensures old(Quiet()) && limit > 0 ==> NamesOf(rows) == FillAfter(NamesOf(old(rows)), start)
    {
      hide SplitGuestName, FillIds, FillNames, Awaiting, Eligible, NamesOf, FillAfter, AllAgree, LeavesLocked;
      ghost var account := byRun;
      var enough := |rows| + 1;
      EligibleFits(rows, start);
      var checkpoint, finished;
      filled, checkpoint, finished := RunPass(start, limit, enough);
      left := |Awaiting(rows)|;
      SetCount(initial, account, byRun, byTraffic);
    }

    /** The whole job: at most five passes, the later ones from the start; `starts` are the turns
        they begin at.  What is left then has been locked while the last pass was at it, or lies
        before the checkpoint of the first and only one; so with a fifth pass all is filled but
        what is locked in that one too. */
    method RunBackfill(startAfter: int, limit: nat)
      returns (total: nat, left: nat, passes: nat, lastFilled: nat, ghost starts: seq<nat>)
      requires Valid()
      modifies this
      ensures Valid() && byRun >= old(byRun) && byTraffic >= old(byTraffic)
      ensures total == |byRun| - |old(byRun)| && left == |Awaiting(rows)|
      ensures |initial| == |byRun| + |byTraffic| + left
      ensures old(AllAgree(rows)) ==> AllAgree(rows)
      ensures 1 <= passes <= 5 && (left == 0 || lastFilled == 0 || passes == 5)
      ensures |starts| == passes && starts[0] == old(turn) && Ascending(starts + [turn])
      ensures limit > 0 ==> LeavesLocked(rows, traffic, starts[passes - 1], turn, if passes == 1 then startAfter else 0)
      ensures old(Quiet()) && limit > 0 && Positive(old(rows)) ==>
        && (left == 0 <==> old(Awaiting(rows)) == {} || Eligible(old(rows), startAfter, {}) != {})
        && NamesOf(rows) == FillAfter(NamesOf(old(rows)), if left == 0 then 0 else startAfter)
    {
      hide SplitGuestName, FillIds, FillNames, Awaiting, Eligible, NamesOf, FillAfter, AllAgree, LeavesLocked;
      assert Ascending([] + [turn]);
      hide Ascending;
      total, left, passes, lastFilled, starts := 0, 0, 0, 0, [];
      ghost var before := NamesOf(rows);
      var start := startAfter;
      while passes < MAX_PASSES
        invariant Valid() && byRun >= old(byRun) && byTraffic >= old(byTraffic)
        invariant passes <= MAX_PASSES
        invariant total == |byRun| - |old(byRun)|
        invariant old(AllAgree(rows)) ==> AllAgree(rows)
        invariant |starts| == passes && (if passes == 0 then turn == old(turn) else starts[0] == old(turn))
        invariant Ascending(starts + [turn])
        invariant passes > 0 && limit > 0 ==>
          LeavesLocked(rows, traffic, starts[passes - 1], turn, if passes == 1 then startAfter else 0)
        invariant passes > 0 ==> left == |Awaiting(rows)| && left > 0 && lastFilled > 0 && start == 0
        invariant old(Quiet()) ==> Quiet() && byTraffic == old(byTraffic)
        invariant passes == 0 ==> start == startAfter && rows == old(rows) && byRun == old(byRun)
        invariant old(Quiet()) && limit > 0 && Positive(old(rows)) && passes > 0 ==>
          passes == 1 && NamesOf(rows) == FillAfter(before, startAfter) && startAfter > 0
          && Eligible(old(rows), startAfter, {}) != {}
      {
        ghost var was := rows;
        starts := starts + [turn];
        var filled;
        filled, left := PassAndCount(start, limit);
        total := total + filled;
        passes := passes + 1;
        LaterTurn(starts, turn);
        lastFilled := filled;
        if old(Quiet()) && limit > 0 && Positive(old(rows)) {
          AnyPass(old(rows), was, rows, startAfter, start, passes);
        }
        if left == 0 || filled == 0 { break; }
        start := 0;
      }
      Account(initial, byRun, byTraffic);
    }
  }

  lemma LaterTurn(starts: seq<int>, turn: int)
    requires Ascending(starts) && starts != [] && starts[|starts| - 1] < turn
    ensures Ascending(starts + [turn])
  {
  }

  lemma SameIds(params: seq<(int, Parts)>, ids: seq<int>)
    requires |params| == |ids| && forall i :: 0 <= i < |ids| ==> params[i].0 == ids[i]
    ensures Ids(params) == Elements(ids)
  {
  }

  // ---- verify ----

  /** `verify`: nothing awaits, and while guest_name exists nothing contradicts it. */
  predicate Verified(schema: Schema, rows: Table) {
    |Awaiting(rows)| == 0 && (schema.guestPresent ==> |Mismatched(rows)| == 0)
  }

  /** The script's verdict is the guard's: it passes exactly when the API would
      let read_new in, or new_only once guest_name is gone. */
  lemma VerdictIsTheGuards(schema: Schema, rows: Table)
    requires schema.newPresent
    ensures Verified(schema, rows) <==> Migration.Accepts(
      if schema.guestPresent then Migration.ReadNew else Migration.NewOnly,
      Migration.StateOf(schema, rows))
  {
  }
}
