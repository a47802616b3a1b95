/** Bookings and re-activations in flight together.  POST locks the row of the table it books;
    a PATCH that brings a cancelled booking back locks only the row of that booking.  Both then
    put a live row in front of the exclusion constraint, which waits for uncommitted rows. */
module Waiting {
  import Booking

  datatype Request =
    | Post(p: Booking.Payload)
    | Patch(id: int, table: int, window: Booking.Window)

  datatype Code = Created201(row: int) | BadRequest400 | NotFound404 | Conflict409 | OK200 | Stale409 | Error500

  datatype Stage =
    | Starting            // about to lock its row
    | Holding             // row locked and read
    | Inserted            // the live row is in the index, not yet checked or committed
    | Finished(code: Code)

  datatype World = World(
    spots: map<int, Booking.Spot>, rows: Booking.Bookings, requests: map<nat, Request>, stages: map<nat, Stage>)

  function TableOf(q: Request): int {
    if q.Post? then q.p.table else q.table
  }

  function WindowOf(q: Request): Booking.Window {
    if q.Post? then q.p.window else q.window
  }

  function Slot(q: Request, status: Booking.Status): Booking.Booked {
    Booking.Booked(TableOf(q), WindowOf(q), status)
  }

  datatype Key = TableRow(table: int) | BookingRow(id: int)

  function Lock(q: Request): Key {
    if q.Post? then TableRow(q.p.table) else BookingRow(q.id)
  }

  predicate Shape(w: World) {
    w.stages.Keys == w.requests.Keys
  }

  /** The request gets as far as the constraint, if nobody else changes its row. */
  predicate Admitted(w: World, q: Request) {
    q.Post? ==> q.p.table in w.spots && Booking.Bookable(w.spots[q.p.table], q.p)
  }

  predicate Clash(a: Request, b: Request) {
    TableOf(a) == TableOf(b) && Booking.Overlap(WindowOf(a), WindowOf(b))
  }

  predicate Inside(stage: Stage) {
    stage.Holding? || stage.Inserted?
  }

  predicate Free(w: World, key: Key)
    requires Shape(w)
  {
    forall j :: j in w.stages && Inside(w.stages[j]) ==> Lock(w.requests[j]) != key
  }

  /** Another transaction's uncommitted row is in the way. */
  predicate MustWait(w: World, i: nat)
    requires Shape(w) && i in w.stages
  {
    exists j :: j in w.stages && j != i && w.stages[j].Inserted? && Clash(w.requests[j], w.requests[i])
  }

  predicate Enabled(w: World, i: nat)
    requires Shape(w)
  {
    i in w.stages &&
    match w.stages[i]
    case Starting => Free(w, Lock(w.requests[i]))
    case Holding => true
    case Inserted => !MustWait(w, i)
    case Finished(_) => false
  }

  function Next(w: World, q: Request, stage: Stage, id: int): Stage {
    match stage
    case Starting =>
      if q.Post? then if q.p.table in w.spots then Holding else Finished(NotFound404)
      else if q.id in w.rows && w.rows[q.id].status == Booking.Cancelled then Holding else Finished(Stale409)
    case Holding => if Admitted(w, q) then Inserted else Finished(BadRequest400)
    case Inserted =>
      if Booking.Taken(w.rows, TableOf(q), WindowOf(q)) then Finished(if q.Post? then Conflict409 else Error500)
      else Finished(if q.Post? then Created201(id) else OK200)
    case Finished(code) => Finished(code)
  }

  /** One turn; `id` is the id a new row gets. */
  function Apply(w: World, i: nat, id: int): (t: World)
    requires Shape(w) && i in w.stages
    ensures Shape(t)
  {
    var q := w.requests[i];
    var next := Next(w, q, w.stages[i], id);
    w.(stages := w.stages[i := next],
       rows := if w.stages[i].Inserted? && (next == Finished(Created201(id)) || next == Finished(OK200))
               then w.rows[(if q.Post? then id else q.id) := Slot(q, Booking.Confirmed)] else w.rows)
  }

  predicate Run(w: World, turns: seq<Booking.Turn>)
    requires Shape(w)
    decreases |turns|
  {
    turns == [] || (
      && Enabled(w, turns[0].i) && turns[0].id !in w.rows
      && Run(Apply(w, turns[0].i, turns[0].id), turns[1..]))
  }

  function After(w: World, turns: seq<Booking.Turn>): (t: World)
    requires Shape(w) && Run(w, turns)
    ensures Shape(t)
    decreases |turns|
  {
    if turns == [] then w else After(Apply(w, turns[0].i, turns[0].id), turns[1..])
  }

  /** Nobody has begun, and every PATCH has loaded a cancelled booking. */
  predicate Init(w: World) {
    && Shape(w) && (forall i :: i in w.stages ==> w.stages[i].Starting?)
    && forall i :: i in w.requests && w.requests[i].Patch? ==>
         var q := w.requests[i]; q.id in w.rows && w.rows[q.id] == Slot(q, Booking.Cancelled)
  }

  predicate AllFinished(w: World) {
    forall i :: i in w.stages ==> w.stages[i].Finished?
  }

  /** Two transactions wait for each other. */
  predicate Deadlocked(w: World)
    requires Shape(w)
  {
    exists i, j :: i in w.stages && j in w.stages && i != j && w.stages[i].Inserted? && w.stages[j].Inserted?
      && Clash(w.requests[i], w.requests[j])
  }

  /** The two want one table at some instant. */
  ghost predicate OneSlot(a: Request, b: Request) {
    && TableOf(a) == TableOf(b)
    && exists t: int :: Booking.During(WindowOf(a), t) && Booking.During(WindowOf(b), t)
  }

  lemma ClashExactly(a: Request, b: Request)
    ensures Clash(a, b) <==> OneSlot(a, b)
  {
    Booking.OverlapMeansInstant(WindowOf(a), WindowOf(b));
  }

  /** Two requests for one slot that lock different rows. */
  ghost predicate Rivals(w: World, i: nat, j: nat) {
    && i in w.requests && j in w.requests && Lock(w.requests[i]) != Lock(w.requests[j])
    && Admitted(w, w.requests[i]) && Admitted(w, w.requests[j]) && OneSlot(w.requests[i], w.requests[j])
  }

  // ---- What every run keeps ----

  predicate Inv(w: World) {
    && Shape(w)
    && (forall i :: i in w.stages && w.stages[i].Inserted? ==> Admitted(w, w.requests[i]))
    && (forall i, j :: i in w.stages && j in w.stages && i != j && Inside(w.stages[i]) && Inside(w.stages[j]) ==>
          Lock(w.requests[i]) != Lock(w.requests[j]))
  }

  lemma StepKeeps(w: World, i: nat, id: int)
    requires Inv(w) && Enabled(w, i)
    ensures Inv(Apply(w, i, id))
    ensures Apply(w, i, id).requests == w.requests && Apply(w, i, id).spots == w.spots
  {
    hide Booking.Taken, Booking.Overlap, Booking.Bookable, Lock;
  }

  lemma {:induction false} RunKeeps(w: World, turns: seq<Booking.Turn>)
    requires Inv(w) && Run(w, turns)
    ensures Inv(After(w, turns)) && After(w, turns).requests == w.requests && After(w, turns).spots == w.spots
    decreases |turns|
  {
    hide Inv, Enabled, Apply;
    if turns != [] {
      Stays(w);
      StepKeeps(w, turns[0].i, turns[0].id);
      RunKeeps(Apply(w, turns[0].i, turns[0].id), turns[1..]);
    }
  }

  lemma Stays(w: World)
    requires Inv(w)
    ensures Shape(w) && forall i :: Enabled(w, i) ==> i in w.stages
  {
  }

  /** Nobody can go on: then everybody has been answered, or two wait for each other. */
  lemma StuckMeansDeadlock(w: World)
    requires Shape(w) && !AllFinished(w) && forall i :: !Enabled(w, i)
    ensures Deadlocked(w)
  {
    hide Clash, Lock;
    var i :| i in w.stages && !w.stages[i].Finished?;
    assert !Enabled(w, i);
    if w.stages[i].Starting? {
      var j :| j in w.stages && Inside(w.stages[j]);
      assert !Enabled(w, j) && MustWait(w, j);
    } else {
      assert MustWait(w, i);
    }
  }

  lemma Goes(w: World, i: nat, id: int, next: Stage)
    requires Shape(w) && i in w.stages && id !in w.rows && Admitted(w, w.requests[i])
    requires
      if next == Holding then w.stages[i].Starting? && Free(w, Lock(w.requests[i]))
      else next == Inserted && w.stages[i].Holding?
    requires var q := w.requests[i]; q.Patch? ==> q.id in w.rows && w.rows[q.id].status == Booking.Cancelled
    ensures Follows(w, Booking.Turn(i, id), w.(stages := w.stages[i := next]))
  {
  }

  function Staged(w: World, i: nat, j: nat, a: Stage, b: Stage): World {
    w.(stages := w.stages[i := a][j := b])
  }

  lemma BothLock(w: World, i: nat, j: nat, id: int)
    requires Init(w) && Rivals(w, i, j) && id !in w.rows
    ensures Follows(w, Booking.Turn(i, id), Staged(w, i, j, Holding, Starting))
    ensures Follows(Staged(w, i, j, Holding, Starting), Booking.Turn(j, id), Staged(w, i, j, Holding, Holding))
  {
    hide Clash, OneSlot, Booking.Bookable, Lock, Follows;
    var t := Staged(w, i, j, Holding, Starting);
    Goes(w, i, id, Holding);
    assert w.stages[i := Holding] == t.stages;
    Goes(t, j, id, Holding);
    assert t.stages[j := Holding] == Staged(w, i, j, Holding, Holding).stages;
  }

  lemma BothInsert(w: World, i: nat, j: nat, id: int)
    requires Init(w) && Rivals(w, i, j) && id !in w.rows
    ensures Follows(Staged(w, i, j, Holding, Holding), Booking.Turn(i, id), Staged(w, i, j, Inserted, Holding))
    ensures Follows(Staged(w, i, j, Inserted, Holding), Booking.Turn(j, id), Staged(w, i, j, Inserted, Inserted))
    ensures Deadlocked(Staged(w, i, j, Inserted, Inserted))
  {
    ClashExactly(w.requests[i], w.requests[j]);
    hide Clash, OneSlot, Booking.Bookable, Lock, Follows, Free;
    var t, u := Staged(w, i, j, Holding, Holding), Staged(w, i, j, Inserted, Holding);
    var v := Staged(w, i, j, Inserted, Inserted);
    assert i != j && i in w.stages && j in w.stages;
    assert t.stages[i := Inserted] == u.stages && u.stages[j := Inserted] == v.stages;
    assert Deadlocked(v) by { assert v.stages[i].Inserted? && v.stages[j].Inserted?; }
    hide Deadlocked, Rivals;
    Goes(t, i, id, Inserted);
    Goes(u, j, id, Inserted);
  }

  /** Two rivals take their turns one by one. */
  lemma RivalsMeet(w: World, i: nat, j: nat, id: int)
    requires Init(w) && Rivals(w, i, j) && id !in w.rows
    ensures var turns := [Booking.Turn(i, id), Booking.Turn(j, id), Booking.Turn(i, id), Booking.Turn(j, id)];
      Run(w, turns) && Deadlocked(After(w, turns))
  {
    hide Init, Rivals, Follows, Run, After, Staged, Deadlocked;
    BothLock(w, i, j, id);
    BothInsert(w, i, j, id);
    FourTurns(w, Staged(w, i, j, Holding, Starting), Staged(w, i, j, Holding, Holding),
      Staged(w, i, j, Inserted, Holding), Staged(w, i, j, Inserted, Inserted),
      Booking.Turn(i, id), Booking.Turn(j, id));
  }

  predicate Follows(w: World, turn: Booking.Turn, t: World) {
    Shape(w) && Enabled(w, turn.i) && turn.id !in w.rows && t == Apply(w, turn.i, turn.id)
  }

  lemma FourTurns(w: World, w1: World, w2: World, w3: World, w4: World, a: Booking.Turn, b: Booking.Turn)
    requires Follows(w, a, w1) && Follows(w1, b, w2) && Follows(w2, a, w3) && Follows(w3, b, w4)
    ensures Run(w, [a, b, a, b]) && After(w, [a, b, a, b]) == w4
  {
    hide Enabled, Apply;
    OneTurn(w3, b, []);
    OneTurn(w2, a, [b]);
    OneTurn(w1, b, [a, b]);
    OneTurn(w, a, [b, a, b]);
    assert [b] + [] == [b] && [a] + [b] == [a, b] && [b] + [a, b] == [b, a, b] && [a] + [b, a, b] == [a, b, a, b];
  }

  lemma OneTurn(w: World, turn: Booking.Turn, rest: seq<Booking.Turn>)
    requires Shape(w) && Enabled(w, turn.i) && turn.id !in w.rows
    requires Run(Apply(w, turn.i, turn.id), rest)
    ensures Run(w, [turn] + rest) && After(w, [turn] + rest) == After(Apply(w, turn.i, turn.id), rest)
  {
  }

  /** A set of bookings and re-activations can deadlock if and only if two of them want one slot
      and lock different rows: that takes a PATCH, and another PATCH of another booking or a
      POST that passes its checks.  Otherwise a schedule that cannot go on has answered all. */
  lemma {:induction false} DeadlockExactly(w: World, id: int)
    requires Init(w) && id !in w.rows
    ensures (exists turns :: Run(w, turns) && Deadlocked(After(w, turns))) <==> exists i, j :: Rivals(w, i, j)
    ensures forall turns :: Run(w, turns) && (forall i :: !Enabled(After(w, turns), i)) ==>
      AllFinished(After(w, turns)) || Deadlocked(After(w, turns))
  {
    hide Enabled, Apply, Deadlocked, AllFinished;
    assert Inv(w);
    if i, j :| Rivals(w, i, j) { RivalsMeet(w, i, j, id); }
    hide Run, After;
    forall turns | Run(w, turns)
      ensures Deadlocked(After(w, turns)) ==> exists i, j :: Rivals(w, i, j)
      ensures (forall i :: !Enabled(After(w, turns), i)) ==> AllFinished(After(w, turns)) || Deadlocked(After(w, turns))
    {
      RunKeeps(w, turns);
      var t := After(w, turns);
      if Deadlocked(t) { DeadlockedAreRivals(w, t); }
      if !AllFinished(t) && forall i :: !Enabled(t, i) { StuckMeansDeadlock(t); }
    }
  }

  lemma DeadlockedAreRivals(w: World, t: World)
    requires Inv(t) && Deadlocked(t) && t.requests == w.requests && t.spots == w.spots
    ensures exists i, j :: Rivals(w, i, j)
  {
    hide Clash, OneSlot, Lock, Booking.Bookable;
    var i, j :| i in t.stages && j in t.stages && i != j && t.stages[i].Inserted? && t.stages[j].Inserted?
      && Clash(t.requests[i], t.requests[j]);
    ClashExactly(t.requests[i], t.requests[j]);
    assert Rivals(w, i, j);
  }

  // ---- Every run ends ----

  function Unfinished(w: World): set<nat> { set i | i in w.stages && !w.stages[i].Finished? }

  function Unwritten(w: World): set<nat> { set i | i in w.stages && (w.stages[i].Starting? || w.stages[i].Holding?) }

  function Unstarted(w: World): set<nat> { set i | i in w.stages && w.stages[i].Starting? }

  /** What is still to do: three turns for a request that has not started. */
  function Work(w: World): nat {
    |Unfinished(w)| + |Unwritten(w)| + |Unstarted(w)|
  }

  lemma TurnsUseWork(w: World, i: nat, id: int)
    requires Shape(w) && Enabled(w, i)
    ensures Work(Apply(w, i, id)) < Work(w)
  {
    hide Clash, Admitted, Booking.Taken, Free, MustWait;
    var t := Apply(w, i, id);
    Booking.SmallerSet(Unfinished(t), Unfinished(w));
    Booking.SmallerSet(Unwritten(t), Unwritten(w));
    Booking.SmallerSet(Unstarted(t), Unstarted(w));
    match w.stages[i] {
      case Starting => assert i in Unstarted(w) && i !in Unstarted(t);
      case Holding => assert i in Unwritten(w) && i !in Unwritten(t);
      case Inserted => assert i in Unfinished(w) && i !in Unfinished(t);
    }
  }

  lemma {:induction false} RunsUseWork(w: World, turns: seq<Booking.Turn>)
    requires Shape(w) && Run(w, turns)
    ensures |turns| <= Work(w)
    decreases |turns|
  {
    hide Work, Apply, Free, MustWait;
    if turns != [] {
      TurnsUseWork(w, turns[0].i, turns[0].id);
      RunsUseWork(Apply(w, turns[0].i, turns[0].id), turns[1..]);
    }
  }

  /** No schedule takes more than three turns a request. */
  lemma EveryRunEnds(w: World, turns: seq<Booking.Turn>)
    requires Shape(w) && Run(w, turns)
    ensures |turns| <= 3 * |w.stages|
  {
    RunsUseWork(w, turns);
    Booking.SmallerSet(Unfinished(w), w.stages.Keys);
    Booking.SmallerSet(Unwritten(w), w.stages.Keys);
    Booking.SmallerSet(Unstarted(w), w.stages.Keys);
  }

  // ---- What the answers mean ----

  /** How a request's stage relates to the rows. */
  predicate Justified(w: World, before: Booking.Bookings, i: nat)
    requires Shape(w) && i in w.stages
  {
    var q := w.requests[i];
    (q.Patch? ==> q.id in before && before[q.id] == Slot(q, Booking.Cancelled)) &&
    match w.stages[i]
    case Starting => true
    case Holding => if q.Post? then q.p.table in w.spots else StillCancelled(w, q)
    case Inserted => if q.Post? then Admitted(w, q) else StillCancelled(w, q)
    case Finished(code) => Answered(w, before, q, code)
  }

  predicate StillCancelled(w: World, q: Request)
    requires q.Patch?
  {
    q.id in w.rows && w.rows[q.id] == Slot(q, Booking.Cancelled)
  }

  /** What an answer says. */
  predicate Answered(w: World, before: Booking.Bookings, q: Request, code: Code) {
    match code
    case Created201(id) =>
      q.Post? && Admitted(w, q) && id !in before && id in w.rows && w.rows[id] == Slot(q, Booking.Confirmed)
    case OK200 => q.Patch? && q.id in w.rows && w.rows[q.id] == Slot(q, Booking.Confirmed)
    case Conflict409 => q.Post? && Admitted(w, q) && Booking.Taken(w.rows, TableOf(q), WindowOf(q))
    case Error500 => q.Patch? && Booking.Taken(w.rows, TableOf(q), WindowOf(q))
    case Stale409 => q.Patch? && Reactivated(w, q.id)
    case BadRequest400 => q.Post? && q.p.table in w.spots && !Admitted(w, q)
    case NotFound404 => q.Post? && q.p.table !in w.spots
  }

  /** Some PATCH of this booking has been answered with 200. */
  predicate Reactivated(w: World, id: int) {
    exists j :: j in w.stages && j in w.requests && w.requests[j].Patch? && w.requests[j].id == id
      && w.stages[j] == Finished(OK200)
  }

  predicate Kept(w: World, id: int, was: Booking.Booked) {
    && id in w.rows
    && (w.rows[id] == was || (
          was.status == Booking.Cancelled && w.rows[id] == was.(status := Booking.Confirmed) && Reactivated(w, id)))
  }

  predicate BookedNow(w: World, id: int) {
    exists j :: j in w.stages && w.stages[j] == Finished(Created201(id))
  }

  /** Every row is as it was, brought back by a PATCH, or booked by a POST. */
  predicate Accounted(w: World, before: Booking.Bookings) {
    && (forall id :: id in before ==> Kept(w, id, before[id]))
    && (forall id :: id in w.rows && id !in before ==> BookedNow(w, id))
  }

  predicate Sound(w: World, before: Booking.Bookings) {
    && Inv(w) && Booking.NoDoubleBooking(w.rows) && Accounted(w, before)
    && forall i :: i in w.stages ==> Justified(w, before, i)
  }

  /** Live rows stay as they are. */
  predicate Grows(rows: Booking.Bookings, rows': Booking.Bookings) {
    forall id :: id in rows ==> id in rows' && (Booking.Live(rows[id]) ==> rows'[id] == rows[id])
  }

  lemma PutKeepsApart(rows: Booking.Bookings, id: int, b: Booking.Booked)
    requires Booking.NoDoubleBooking(rows) && !Booking.Taken(rows, b.table, b.window)
    requires id in rows ==> !Booking.Live(rows[id])
    ensures Booking.NoDoubleBooking(rows[id := b])
  {
  }

  lemma RowsGrow(w: World, before: Booking.Bookings, i: nat, id: int)
    requires Sound(w, before) && Enabled(w, i) && id !in w.rows
    ensures var t := Apply(w, i, id); Grows(w.rows, t.rows) && Booking.NoDoubleBooking(t.rows)
  {
    hide Booking.NoDoubleBooking, Booking.Taken, Accounted, Inv, MustWait, Free, Answered;
    assert Shape(w) && Justified(w, before, i) by { InvShape(w); }
    var t, q := Apply(w, i, id), w.requests[i];
    if t.rows != w.rows {
      PutKeepsApart(w.rows, if q.Post? then id else q.id, Slot(q, Booking.Confirmed));
    }
  }

  lemma InvShape(w: World)
    requires Inv(w)
    ensures Shape(w)
  {
  }

  lemma ReactivatedStays(w: World, i: nat, id: int, row: int)
    requires Shape(w) && Enabled(w, i) && Reactivated(w, row)
    ensures Reactivated(Apply(w, i, id), row)
  {
    hide Free, MustWait, Booking.Taken;
    var j :| j in w.stages && j in w.requests && w.requests[j].Patch? && w.requests[j].id == row
      && w.stages[j] == Finished(OK200);
    assert Apply(w, i, id).stages[j] == w.stages[j];
  }

  /** An answer keeps its meaning. */
  lemma AnswerStays(w: World, before: Booking.Bookings, i: nat, id: int, q: Request, code: Code)
    requires Shape(w) && Enabled(w, i) && Grows(w.rows, Apply(w, i, id).rows) && Answered(w, before, q, code)
    ensures Answered(Apply(w, i, id), before, q, code)
  {
    var t := Apply(w, i, id);
    assert t.spots == w.spots;
    hide Apply, Enabled, Booking.Taken, Booking.Bookable, Reactivated;
    if code.Stale409? { ReactivatedStays(w, i, id, q.id); }
  }

  lemma OtherStays(w: World, before: Booking.Bookings, i: nat, id: int, k: nat)
    requires Sound(w, before) && Enabled(w, i) && id !in w.rows && k in w.stages && k != i
    requires Grows(w.rows, Apply(w, i, id).rows)
    ensures Justified(Apply(w, i, id), before, k)
  {
    hide Booking.NoDoubleBooking, Booking.Taken, Booking.Bookable, Accounted, MustWait, Free, Answered, Grows;
    assert Justified(w, before, k) && Justified(w, before, i);
    var t := Apply(w, i, id);
    assert t.stages[k] == w.stages[k];
    if w.stages[k].Finished? { AnswerStays(w, before, i, id, w.requests[k], w.stages[k].code); }
  }

  lemma NextIsJustified(w: World, before: Booking.Bookings, i: nat, id: int)
    requires Sound(w, before) && Enabled(w, i) && id !in w.rows
    ensures Justified(Apply(w, i, id), before, i)
  {
    hide Booking.NoDoubleBooking, Booking.Bookable, Booking.Overlap, MustWait, Free;
    assert Justified(w, before, i);
    var t, q := Apply(w, i, id), w.requests[i];
    if w.stages[i].Starting? && q.Patch? {
      assert Kept(w, q.id, before[q.id]);
      if Reactivated(w, q.id) { ReactivatedStays(w, i, id, q.id); }
    }
  }

  lemma AccountKeeps(w: World, before: Booking.Bookings, i: nat, id: int)
    requires Sound(w, before) && Enabled(w, i) && id !in w.rows
    ensures Accounted(Apply(w, i, id), before)
  {
    hide Booking.NoDoubleBooking, Booking.Taken, Booking.Bookable, MustWait, Free, Answered, Reactivated;
    var t, q := Apply(w, i, id), w.requests[i];
    assert Justified(w, before, i);
    forall row | row in before ensures Kept(t, row, before[row]) {
      assert Kept(w, row, before[row]);
      if Reactivated(w, row) { ReactivatedStays(w, i, id, row); }
      if t.rows != w.rows && q.Patch? && row == q.id { NowReactivated(w, i, id); }
    }
    forall row | row in t.rows && row !in before ensures BookedNow(t, row) {
      if row in w.rows {
        var j :| j in w.stages && w.stages[j] == Finished(Created201(row));
        assert t.stages[j] == w.stages[j];
      } else {
        assert t.stages[i] == Finished(Created201(row));
      }
    }
  }

  lemma NowReactivated(w: World, i: nat, id: int)
    requires Shape(w) && i in w.stages && w.requests[i].Patch? && Apply(w, i, id).rows != w.rows
    ensures Reactivated(Apply(w, i, id), w.requests[i].id)
  {
    assert Apply(w, i, id).stages[i] == Finished(OK200);
  }

  lemma SoundStep(w: World, before: Booking.Bookings, i: nat, id: int)
    requires Sound(w, before) && Enabled(w, i) && id !in w.rows
    ensures Sound(Apply(w, i, id), before)
  {
    var t := Apply(w, i, id);
    assert t.stages.Keys == w.stages.Keys;
    hide Booking.NoDoubleBooking, Accounted, Inv, Justified, Enabled, Apply, Grows;
    InvShape(w);
    StepKeeps(w, i, id);
    RowsGrow(w, before, i, id);
    AccountKeeps(w, before, i, id);
    forall k | k in t.stages ensures Justified(t, before, k) {
      if k == i { NextIsJustified(w, before, i, id); } else { OtherStays(w, before, i, id, k); }
    }
  }

  lemma {:induction false} SoundRun(w: World, before: Booking.Bookings, turns: seq<Booking.Turn>)
    requires Sound(w, before) && Run(w, turns)
    ensures Sound(After(w, turns), before)
    decreases |turns|
  {
    hide Inv, Accounted, Booking.NoDoubleBooking, Justified, Enabled, Apply;
    if turns != [] {
      Stays(w);
      SoundStep(w, before, turns[0].i, turns[0].id);
      SoundRun(Apply(w, turns[0].i, turns[0].id), before, turns[1..]);
    }
  }

  /** Whatever the schedule of bookings and re-activations, deadlocked or not: the live rows
      never overlap; a live row stays as it is; and every answer is justified.  A 201 is a new
      row, a 200 the booking brought back; a 409 and the 500 have a live row in their way, which
      is an old one or one of this run; the version conflict means that another PATCH has
      brought the booking back; 400 and 404 depend on the request alone. */
  lemma AnswersAreJustified(w: World, turns: seq<Booking.Turn>, i: nat)
    requires Init(w) && Booking.NoDoubleBooking(w.rows) && Run(w, turns)
    ensures var t := After(w, turns);
      && Booking.NoDoubleBooking(t.rows) && Accounted(t, w.rows)
      && t.requests == w.requests && t.spots == w.spots
      && (i in t.stages && i in w.requests && t.stages[i].Finished? ==>
            Answered(t, w.rows, w.requests[i], t.stages[i].code))
  {
    hide Run, After, Booking.NoDoubleBooking, Answered, Booking.Bookable;
    assert Inv(w) && Sound(w, w.rows);
    RunKeeps(w, turns);
    SoundRun(w, w.rows, turns);
    var t := After(w, turns);
    hide Inv, Accounted;
    if i in t.stages && t.stages[i].Finished? { assert Justified(t, w.rows, i); }
  }
}
