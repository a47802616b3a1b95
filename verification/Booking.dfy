/** Booking a table: N requests at once, the lock on the table's row, the
    exclusion constraint, and the availability query that must agree with it. */
module Booking {
  import opened Store

  datatype Span = Span(start: int, end: int)

  /** ck_reservations_time_order */
  type Window = w: Span | w.start < w.end witness Span(0, 1)

  datatype Status = Pending | Confirmed | Cancelled

  datatype Spot = Spot(restaurant: int, active: bool, capacity: int)

  datatype Booked = Booked(table: int, window: Window, status: Status)

  type Bookings = map<int, Booked>

  /** `tstzrange(a, '[)') && tstzrange(b, '[)')` */
  predicate Overlap(a: Window, b: Window) {
    a.start < b.end && b.start < a.end
  }

  predicate During(w: Window, t: int) {
    w.start <= t < w.end
  }

  /** Half-open windows overlap exactly when they share an instant. */
  lemma OverlapMeansInstant(a: Window, b: Window)
    ensures Overlap(a, b) <==> exists t :: During(a, t) && During(b, t)
  {
    if Overlap(a, b) {
      var t := if a.start < b.start then b.start else a.start;
      assert During(a, t) && During(b, t);
    }
  }

  predicate Live(b: Booked) {
    b.status != Cancelled
  }

  /** A live booking of that table in the way of a window. */
  predicate Clashes(b: Booked, table: int, w: Window) {
    Live(b) && b.table == table && Overlap(b.window, w)
  }

  predicate Taken(rows: Bookings, table: int, w: Window) {
    exists id :: id in rows && Clashes(rows[id], table, w)
  }

  /** no_double_booking */
  predicate NoDoubleBooking(rows: Bookings) {
    forall i, j :: i in rows && j in rows && i != j && Live(rows[j]) ==>
      !Clashes(rows[i], rows[j].table, rows[j].window)
  }

  // ---- The booking requests ----

  datatype Payload = Payload(restaurant: int, table: int, party: int, window: Window)

  datatype Answer = Created201(id: int) | BadRequest400 | NotFound404 | Conflict409

  datatype Tx =
    | Starting            // about to lock the table's row
    | Holding             // row locked and read
    | Inserted            // the new row is in the table, not yet checked or committed
    | Finished(answer: Answer)

  datatype World = World(
    spots: map<int, Spot>,
    rows: Bookings,
    payloads: map<nat, Payload>,
    txs: map<nat, Tx>)

  /** Between the lock and the end of the transaction. */
  predicate Inside(tx: Tx) {
    tx.Holding? || tx.Inserted?
  }

  predicate Holds(w: World, i: nat, table: int)
    requires w.txs.Keys == w.payloads.Keys
  {
    i in w.txs && Inside(w.txs[i]) && w.payloads[i].table == table
  }

  /** Another transaction's uncommitted row is in the way: PostgreSQL waits for it. */
  predicate MustWait(w: World, i: nat)
    requires w.txs.Keys == w.payloads.Keys && i in w.txs
  {
    exists j :: j in w.txs && j != i && w.txs[j].Inserted?
      && w.payloads[j].table == w.payloads[i].table
      && Overlap(w.payloads[j].window, w.payloads[i].window)
  }

  predicate Shape(w: World) {
    w.txs.Keys == w.payloads.Keys
  }

  /** `locking` is whether the table's row is locked first, as the service does;
      without it the step is a plain read. */
  predicate Enabled(w: World, i: nat, locking: bool)
    requires Shape(w)
  {
    i in w.txs &&
    match w.txs[i]
    case Starting =>
      var t := w.payloads[i].table;
      locking && t in w.spots ==> forall j :: j in w.txs ==> !Holds(w, j, t)
    case Holding => true
    case Inserted => !MustWait(w, i)
    case Finished(_) => false
  }

  /** The checks that only give clearer messages. */
  predicate Bookable(spot: Spot, p: Payload) {
    spot.restaurant == p.restaurant && spot.active && p.party <= spot.capacity
  }

  function NextTx(w: World, i: nat, id: int): Tx
    requires Shape(w) && i in w.txs
  {
    var p := w.payloads[i];
    match w.txs[i]
    case Starting => if p.table in w.spots then Holding else Finished(NotFound404)
    case Holding =>
      if p.table in w.spots && Bookable(w.spots[p.table], p) then Inserted else Finished(BadRequest400)
    case Inserted => if Taken(w.rows, p.table, p.window) then Finished(Conflict409) else Finished(Created201(id))
    case Finished(a) => Finished(a)
  }

  /** One turn of one transaction; `id` is the id a committed row gets. */
  function Apply(w: World, i: nat, id: int): (w': World)
    requires Shape(w) && i in w.txs
    ensures Shape(w')
  {
    var p, next := w.payloads[i], NextTx(w, i, id);
    w.(txs := w.txs[i := next],
       rows := if w.txs[i].Inserted? && next == Finished(Created201(id))
               then w.rows[id := Booked(p.table, p.window, Confirmed)] else w.rows)
  }

  datatype Turn = Turn(i: nat, id: int)

  predicate Run(w: World, turns: seq<Turn>, locking: bool)
    requires Shape(w)
    decreases |turns|
  {
    turns == [] || (
      && Enabled(w, turns[0].i, locking) && turns[0].id !in w.rows
      && Run(Apply(w, turns[0].i, turns[0].id), turns[1..], locking))
  }

  function After(w: World, turns: seq<Turn>, locking: bool): (w': World)
    requires Shape(w) && Run(w, turns, locking)
    ensures Shape(w')
    decreases |turns|
  {
    if turns == [] then w else After(Apply(w, turns[0].i, turns[0].id), turns[1..], locking)
  }

  predicate Init(w: World) {
    Shape(w) && NoDoubleBooking(w.rows) && forall i :: i in w.txs ==> w.txs[i].Starting?
  }

  predicate AllFinished(w: World) {
    forall i :: i in w.txs ==> w.txs[i].Finished?
  }

  // ---- The invariant ----

  /** One transaction per table between lock and commit, and no double booking. */
  predicate OneInside(w: World)
    requires Shape(w)
  {
    forall i, j :: i in w.txs && j in w.txs && i != j && Inside(w.txs[i]) && Inside(w.txs[j]) ==>
      w.payloads[i].table != w.payloads[j].table
  }

  /** The request passes every check but the constraint's. */
  predicate Admissible(w: World, p: Payload) {
    p.table in w.spots && Bookable(w.spots[p.table], p)
  }

  /** How a request's state relates to the rows; `before` are those of the start. */
  predicate Justified(w: World, before: Bookings, i: nat)
    requires Shape(w) && i in w.txs
  {
    var p := w.payloads[i];
    match w.txs[i]
    case Starting => true
    case Holding => p.table in w.spots
    case Inserted => Admissible(w, p)
    case Finished(Created201(id)) =>
      Admissible(w, p) && id !in before && id in w.rows && w.rows[id] == Booked(p.table, p.window, Confirmed)
    case Finished(Conflict409) => Admissible(w, p) && Taken(w.rows, p.table, p.window)
    case Finished(BadRequest400) => p.table in w.spots && !Admissible(w, p)
    case Finished(NotFound404) => p.table !in w.spots
  }

  /** Every row is an old one or some request's booking. */
  predicate Accounted(w: World, before: Bookings) {
    && (forall id :: id in before ==> id in w.rows && w.rows[id] == before[id])
    && (forall id :: id in w.rows && id !in before ==> exists i :: i in w.txs && w.txs[i] == Finished(Created201(id)))
  }

  predicate OneEach(w: World) {
    forall i, j :: i in w.txs && j in w.txs && i != j && w.txs[i].Finished? && w.txs[i].answer.Created201? ==>
      w.txs[j] != w.txs[i]
  }

  predicate Inv(w: World, before: Bookings) {
    && Shape(w) && NoDoubleBooking(w.rows) && OneEach(w)
    && (forall i :: i in w.txs ==> Justified(w, before, i))
    && Accounted(w, before)
  }

  lemma {:induction false} CommitKeepsApart(rows: Bookings, id: int, b: Booked)
    requires NoDoubleBooking(rows) && id !in rows && !Taken(rows, b.table, b.window)
    ensures NoDoubleBooking(rows[id := b])
  {
  }

  lemma TakenStays(rows: Bookings, id: int, b: Booked, table: int, w: Window)
    requires id !in rows && Taken(rows, table, w)
    ensures Taken(rows[id := b], table, w)
  {
    var i :| i in rows && Clashes(rows[i], table, w);
    assert rows[id := b][i] == rows[i];
  }

  /** Answers stay justified while other transactions move. */
  lemma StillJustified(w: World, t: World, before: Bookings, j: nat, id: int)
    requires Shape(w) && Shape(t) && j in w.txs && j in t.txs && t.txs[j] == w.txs[j]
    requires t.spots == w.spots && t.payloads == w.payloads && Justified(w, before, j)
    requires t.rows == w.rows || (id in t.rows && id !in w.rows && t.rows == w.rows[id := t.rows[id]])
    ensures Justified(t, before, j)
  {
    hide Overlap, Clashes, Taken, Bookable;
    var p := w.payloads[j];
    if t.rows != w.rows && Taken(w.rows, p.table, p.window) {
      TakenStays(w.rows, id, t.rows[id], p.table, p.window);
    }
  }

  lemma NextIsJustified(w: World, before: Bookings, i: nat, id: int)
    requires Shape(w) && i in w.txs && Justified(w, before, i)
    requires id !in w.rows && forall k :: k in before ==> k in w.rows
    ensures Justified(Apply(w, i, id), before, i)
  {
  }

  lemma AccountKeeps(w: World, before: Bookings, i: nat, id: int)
    requires Shape(w) && i in w.txs && !w.txs[i].Finished? && Accounted(w, before) && id !in w.rows
    ensures Accounted(Apply(w, i, id), before)
  {
  }

  lemma OneEachKeeps(w: World, before: Bookings, i: nat, id: int)
    requires Shape(w) && i in w.txs && OneEach(w) && id !in w.rows
    requires forall j :: j in w.txs ==> Justified(w, before, j)
    ensures OneEach(Apply(w, i, id))
  {
  }

  lemma StepKeeps(w: World, before: Bookings, turn: Turn, locking: bool)
    requires Inv(w, before) && Enabled(w, turn.i, locking) && turn.id !in w.rows
    ensures Inv(Apply(w, turn.i, turn.id), before)
  {
    hide Overlap, Clashes, MustWait, Taken, Bookable, NoDoubleBooking, OneEach, Accounted;
    var i, id := turn.i, turn.id;
    var t, p := Apply(w, i, id), w.payloads[i];
    assert Justified(w, before, i);
    if t.rows != w.rows { CommitKeepsApart(w.rows, id, t.rows[id]); }
    OneEachKeeps(w, before, i, id);
    AccountKeeps(w, before, i, id);
    BeforeStays(w, before);
    NextIsJustified(w, before, i, id);
    hide NextTx, Justified;
    forall j | j in t.txs ensures Justified(t, before, j) {
      if j != i { StillJustified(w, t, before, j, id); }
    }
  }

  lemma BeforeStays(w: World, before: Bookings)
    requires Accounted(w, before)
    ensures forall k :: k in before ==> k in w.rows
  {
  }

  lemma StepKeepsOne(w: World, i: nat, id: int)
    requires Shape(w) && OneInside(w) && Enabled(w, i, true)
    requires w.txs[i].Holding? ==> w.payloads[i].table in w.spots
    ensures OneInside(Apply(w, i, id))
  {
  }

  // ---- No deadlock, and every run ends ----

  /** A transaction that holds the lock never waits. */
  lemma HolderNeverWaits(w: World, i: nat)
    requires Shape(w) && OneInside(w) && i in w.txs && Inside(w.txs[i])
    ensures Enabled(w, i, true)
  {
  }

  /** As long as a request is unanswered, some transaction can take its turn. */
  lemma NoDeadlock(w: World) returns (i: nat)
    requires Shape(w) && OneInside(w) && !AllFinished(w)
    ensures Enabled(w, i, true)
  {
    if j :| j in w.txs && Inside(w.txs[j]) {
      HolderNeverWaits(w, j);
      i := j;
    } else {
      i :| i in w.txs && !w.txs[i].Finished?;
    }
  }

  /** Without the lock two overlapping inserts wait for each other for good. */
  lemma DeadlockWithoutLock(w: World, id: int)
    requires Init(w) && w.txs.Keys == {0, 1} && id !in w.rows
    requires Admissible(w, w.payloads[0]) && Admissible(w, w.payloads[1])
    requires w.payloads[0].table == w.payloads[1].table && Overlap(w.payloads[0].window, w.payloads[1].window)
    ensures var turns := [Turn(0, id), Turn(1, id), Turn(0, id), Turn(1, id)];
      && Run(w, turns, false)
      && var t := After(w, turns, false);
         !AllFinished(t) && forall i :: !Enabled(t, i, false)
  {
    hide Bookable, Clashes, Taken, NoDoubleBooking, AllFinished;
    var w1 := Apply(w, 0, id);
    var w2 := Apply(w1, 1, id);
    var w3 := Apply(w2, 0, id);
    var w4 := Apply(w3, 1, id);
    assert w4.txs[0] == Inserted && w4.txs[1] == Inserted && w4.txs.Keys == {0, 1};
    hide Apply, MustWait;
    OneTurn(w3, Turn(1, id), []);
    OneTurn(w2, Turn(0, id), [Turn(1, id)]);
    OneTurn(w1, Turn(1, id), [Turn(0, id), Turn(1, id)]);
    OneTurn(w, Turn(0, id), [Turn(1, id), Turn(0, id), Turn(1, id)]);
    BothStuck(w4);
  }

  lemma OneTurn(w: World, turn: Turn, rest: seq<Turn>)
    requires Shape(w) && Enabled(w, turn.i, false) && turn.id !in w.rows
    requires Run(Apply(w, turn.i, turn.id), rest, false)
    ensures Run(w, [turn] + rest, false)
    ensures After(w, [turn] + rest, false) == After(Apply(w, turn.i, turn.id), rest, false)
  {
  }

  /** Only an uncommitted booking of the same table at the same time is waited for. */
  lemma WaitsExactly(w: World, i: nat)
    requires Shape(w) && i in w.txs
    ensures MustWait(w, i) <==> exists j, t ::
      j in w.txs && j != i && w.txs[j].Inserted? && w.payloads[j].table == w.payloads[i].table
      && During(w.payloads[j].window, t) && During(w.payloads[i].window, t)
  {
    forall j | j in w.txs
      ensures Overlap(w.payloads[j].window, w.payloads[i].window)
        <==> exists t :: During(w.payloads[j].window, t) && During(w.payloads[i].window, t)
    {
      OverlapMeansInstant(w.payloads[j].window, w.payloads[i].window);
    }
    hide Overlap, During;
  }

  lemma BothStuck(w: World)
    requires Shape(w) && w.txs.Keys == {0, 1} && w.txs[0] == Inserted && w.txs[1] == Inserted
    requires w.payloads[0].table == w.payloads[1].table && Overlap(w.payloads[0].window, w.payloads[1].window)
    ensures !AllFinished(w) && forall i :: !Enabled(w, i, false)
  {
  }

  // ---- Whole runs ----

  lemma {:induction false} RunKeeps(w: World, before: Bookings, turns: seq<Turn>, locking: bool)
    requires Inv(w, before) && Run(w, turns, locking)
    ensures Inv(After(w, turns, locking), before)
    ensures After(w, turns, locking).spots == w.spots
    ensures After(w, turns, locking).payloads == w.payloads
    decreases |turns|
  {
    hide Enabled, NextTx, NoDoubleBooking, OneEach, Accounted, Justified;
    if turns != [] {
      InEnabled(w, turns[0].i, locking);
      StepKeeps(w, before, turns[0], locking);
      RunKeeps(Apply(w, turns[0].i, turns[0].id), before, turns[1..], locking);
    }
  }

  lemma {:induction false} LockedRunKeeps(w: World, before: Bookings, turns: seq<Turn>)
    requires Inv(w, before) && OneInside(w) && Run(w, turns, true)
    ensures OneInside(After(w, turns, true))
    decreases |turns|
  {
    hide Enabled, NextTx, NoDoubleBooking, OneEach, Accounted, OneInside;
    if turns != [] {
      assert Justified(w, before, turns[0].i) by { InEnabled(w, turns[0].i, true); }
      StepKeepsOne(w, turns[0].i, turns[0].id);
      StepKeeps(w, before, turns[0], true);
      LockedRunKeeps(Apply(w, turns[0].i, turns[0].id), before, turns[1..]);
    }
  }

  lemma InEnabled(w: World, i: nat, locking: bool)
    requires Shape(w) && Enabled(w, i, locking)
    ensures i in w.txs && !w.txs[i].Finished?
  {
  }

  lemma InitIsFine(w: World)
    requires Init(w)
    ensures Inv(w, w.rows) && OneInside(w)
  {
  }

  function Unfinished(w: World): set<nat> { set i | i in w.txs && !w.txs[i].Finished? }

  function Unwritten(w: World): set<nat> { set i | i in w.txs && (w.txs[i].Starting? || w.txs[i].Holding?) }

  function Unstarted(w: World): set<nat> { set i | i in w.txs && w.txs[i].Starting? }

  /** What is still to do: three turns for a request that has not started. */
  function Work(w: World): nat {
    |Unfinished(w)| + |Unwritten(w)| + |Unstarted(w)|
  }

  lemma SmallerSet(small: set<nat>, big: set<nat>)
    requires small <= big
    ensures |small| <= |big| && (small != big ==> |small| < |big|)
  {
    assert big == small + (big - small);
  }

  lemma TurnsUseWork(w: World, i: nat, id: int)
    requires Shape(w) && i in w.txs && !w.txs[i].Finished?
    ensures Work(Apply(w, i, id)) < Work(w)
  {
    hide Overlap, Clashes, Taken, Bookable;
    var t := Apply(w, i, id);
    SmallerSet(Unfinished(t), Unfinished(w));
    SmallerSet(Unwritten(t), Unwritten(w));
    SmallerSet(Unstarted(t), Unstarted(w));
    match w.txs[i] {
      case Starting => assert i in Unstarted(w) && i !in Unstarted(t);
      case Holding => assert i in Unwritten(w) && i !in Unwritten(t);
      case Inserted => assert i in Unfinished(w) && i !in Unfinished(t);
    }
  }

  lemma {:induction false} RunsUseWork(w: World, turns: seq<Turn>, locking: bool)
    requires Shape(w) && Run(w, turns, locking)
    ensures |turns| <= Work(w)
    decreases |turns|
  {
    hide Work, NextTx, Enabled;
    if turns != [] {
      InEnabled(w, turns[0].i, locking);
      TurnsUseWork(w, turns[0].i, turns[0].id);
      RunsUseWork(Apply(w, turns[0].i, turns[0].id), turns[1..], locking);
    }
  }

  lemma WorkAtMost(w: World)
    ensures Work(w) <= 3 * |w.txs|
  {
    SmallerSet(Unfinished(w), w.txs.Keys);
    SmallerSet(Unwritten(w), w.txs.Keys);
    SmallerSet(Unstarted(w), w.txs.Keys);
  }

  /** No schedule of N booking requests deadlocks or goes on for ever: it takes at most three
      turns per request, at most one transaction per table is between lock and commit, and a
      schedule that cannot go on has answered every request. */
  lemma EveryRunEnds(w: World, turns: seq<Turn>)
    requires Init(w) && Run(w, turns, true)
    ensures |turns| <= 3 * |w.txs|
    ensures OneInside(After(w, turns, true))
    ensures (forall i :: !Enabled(After(w, turns, true), i, true)) ==> AllFinished(After(w, turns, true))
  {
    hide Enabled, Apply, AllFinished, OneInside, Run, After, Inv, Work;
    InitIsFine(w);
    RunsUseWork(w, turns, true);
    WorkAtMost(w);
    LockedRunKeeps(w, w.rows, turns);
    var t := After(w, turns, true);
    if !AllFinished(t) { var i := NoDeadlock(t); }
  }

  /** What the answers mean, whatever the schedule, with the lock or without it: the live rows
      never overlap; a 201 is a booking that is there and was not before; a 409 has a live row
      in its way, which was there before or is a 201 of this run; and the 400 and 404 answers
      depend on the request alone. So the accepted bookings are a maximal set without overlaps. */
  lemma AnswersAreJustified(w: World, turns: seq<Turn>, locking: bool, i: nat)
    requires Init(w) && Run(w, turns, locking)
    ensures var t := After(w, turns, locking);
      && NoDoubleBooking(t.rows)
      && (forall id :: id in w.rows ==> id in t.rows && t.rows[id] == w.rows[id])
      && (i in t.txs && i in w.payloads && t.txs[i].Finished? ==>
            var p := w.payloads[i];
            match t.txs[i].answer
            case Created201(id) =>
              Admissible(w, p) && id !in w.rows && id in t.rows && t.rows[id] == Booked(p.table, p.window, Confirmed)
            case Conflict409 => Admissible(w, p) && exists id ::
              id in t.rows && Clashes(t.rows[id], p.table, p.window)
              && (id in w.rows || exists j :: j in t.txs && t.txs[j] == Finished(Created201(id)))
            case BadRequest400 => p.table in w.spots && !Bookable(w.spots[p.table], p)
            case NotFound404 => p.table !in w.spots)
  {
    hide NoDoubleBooking, Clashes, OneEach, Run, After, Bookable;
    InitIsFine(w);
    RunKeeps(w, w.rows, turns, locking);
    var t := After(w, turns, locking);
    if i in t.txs && t.txs[i].Finished? {
      assert Justified(t, w.rows, i);
      if t.txs[i].answer.Conflict409? {
        var p := w.payloads[i];
        var id :| id in t.rows && Clashes(t.rows[id], p.table, p.window);
      }
    }
  }

  /** Requests for windows that all overlap on one free table: exactly one gets it. */
  lemma ExactlyOne(w: World, turns: seq<Turn>, table: int) returns (winner: nat)
    requires Init(w) && Run(w, turns, true) && AllFinished(After(w, turns, true)) && w.txs.Keys != {}
    requires forall i :: i in w.txs ==> w.payloads[i].table == table && Admissible(w, w.payloads[i])
    requires forall i, j :: i in w.txs && j in w.txs ==> Overlap(w.payloads[i].window, w.payloads[j].window)
    requires forall i :: i in w.txs ==> !Taken(w.rows, table, w.payloads[i].window)
    ensures var t := After(w, turns, true);
      && winner in t.txs && t.txs[winner].Finished? && t.txs[winner].answer.Created201?
      && (forall j :: j in t.txs && j != winner ==> t.txs[j] == Finished(Conflict409))
  {
    hide Run, After, Bookable, OneEach;
    InitIsFine(w);
    RunKeeps(w, w.rows, turns, true);
    var t := After(w, turns, true);
    winner := SomeWinner(w, t, table);
    forall j | j in t.txs && j != winner ensures t.txs[j] == Finished(Conflict409) {
      OnlyOneWinner(w, t, table, winner, j);
    }
  }

  lemma SomeWinner(w: World, t: World, table: int) returns (winner: nat)
    requires Inv(t, w.rows) && AllFinished(t) && t.txs.Keys == w.txs.Keys && w.txs.Keys != {}
    requires Shape(w) && t.payloads == w.payloads && t.spots == w.spots
    requires forall i :: i in w.txs ==> w.payloads[i].table == table && Admissible(w, w.payloads[i])
    requires forall i :: i in w.txs ==> !Taken(w.rows, table, w.payloads[i].window)
    ensures winner in t.txs && t.txs[winner].answer.Created201?
  {
    hide Clashes, Bookable, NoDoubleBooking, OneEach;
    var i :| i in w.txs.Keys;
    assert Justified(t, w.rows, i) && t.txs[i].Finished?;
    if t.txs[i].answer.Created201? {
      winner := i;
    } else {
      var id :| id in t.rows && Clashes(t.rows[id], table, t.payloads[i].window);
      assert id !in w.rows;
      winner :| winner in t.txs && t.txs[winner] == Finished(Created201(id));
    }
  }

  lemma OnlyOneWinner(w: World, t: World, table: int, i: nat, j: nat)
    requires Inv(t, w.rows) && AllFinished(t) && t.txs.Keys == w.txs.Keys && i in w.txs && j in w.txs && i != j
    requires Shape(w) && t.payloads == w.payloads && t.spots == w.spots
    requires w.payloads[i].table == table && w.payloads[j].table == table && Admissible(w, w.payloads[j])
    requires Overlap(w.payloads[i].window, w.payloads[j].window)
    requires t.txs[i].answer.Created201?
    ensures t.txs[j] == Finished(Conflict409)
  {
    hide Bookable, Overlap, Accounted;
    assert Justified(t, w.rows, i) && Justified(t, w.rows, j) && t.txs[j].Finished?;
  }

  // ---- The availability query ----

  /** The eligible tables, each with whether it is free; none for a window that does not end
      after it starts (400). */
  function CheckAvailability(w: World, restaurant: int, span: Span, party: int): Option<map<int, bool>> {
    if span.end <= span.start then None else
    Some(map t | t in w.spots && w.spots[t].restaurant == restaurant && w.spots[t].active
                 && w.spots[t].capacity >= party :: !Taken(w.rows, t, span))
  }

  /** The turns of a request that no other one interferes with. */
  function LoneTurns(w: World, i: nat, id: int): seq<Turn>
    requires Shape(w) && i in w.txs
  {
    var p := w.payloads[i];
    if p.table !in w.spots then [Turn(i, id)]
    else if !Bookable(w.spots[p.table], p) then [Turn(i, id), Turn(i, id)]
    else [Turn(i, id), Turn(i, id), Turn(i, id)]
  }

  /** The query lists a table as free exactly when a booking made in that state is accepted. */
  lemma AvailabilityAgrees(w: World, i: nat, id: int)
    requires Shape(w) && i in w.txs && w.txs[i].Starting? && id !in w.rows
    requires forall j :: j in w.txs && Inside(w.txs[j]) ==> w.payloads[j].table != w.payloads[i].table
    ensures var p, turns := w.payloads[i], LoneTurns(w, i, id);
      var slots := CheckAvailability(w, p.restaurant, p.window, p.party);
      && Run(w, turns, true) && slots.Some? && i in After(w, turns, true).txs
      && After(w, turns, true).txs[i] == Finished(
           if p.table !in w.spots then NotFound404
           else if p.table !in slots.value then BadRequest400
           else if slots.value[p.table] then Created201(id)
           else Conflict409)
  {
    hide Overlap, Clashes, Taken;
    var p := w.payloads[i];
    var a := Apply(w, i, id);
    if p.table in w.spots {
      var b := Apply(a, i, id);
      if Bookable(w.spots[p.table], p) {
        var c := Apply(b, i, id);
        assert b.txs[i].Inserted? && !MustWait(b, i);
        hide Apply, Enabled;
        LastTurn(b, i, id);
        NextTurn(a, i, id, [Turn(i, id)]);
        NextTurn(w, i, id, [Turn(i, id), Turn(i, id)]);
      } else {
        hide Apply, Enabled;
        LastTurn(a, i, id);
        NextTurn(w, i, id, [Turn(i, id)]);
      }
    } else {
      hide Apply, Enabled;
      LastTurn(w, i, id);
    }
  }

  lemma LastTurn(w: World, i: nat, id: int)
    requires Shape(w) && Enabled(w, i, true) && id !in w.rows
    ensures Run(w, [Turn(i, id)], true) && After(w, [Turn(i, id)], true) == Apply(w, i, id)
  {
  }

  lemma NextTurn(w: World, i: nat, id: int, rest: seq<Turn>)
    requires Shape(w) && Enabled(w, i, true) && id !in w.rows && Run(Apply(w, i, id), rest, true)
    ensures Run(w, [Turn(i, id)] + rest, true)
    ensures After(w, [Turn(i, id)] + rest, true) == After(Apply(w, i, id), rest, true)
  {
  }
}
