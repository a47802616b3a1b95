/** The status of an order, changed by several staff at once under a row lock. */
module Orders {
  datatype OrderStatus = Placed | Preparing | Ready | Completed | Cancelled

  const TRANSITIONS: map<OrderStatus, set<OrderStatus>> :=
    map[
      Placed := {Preparing, Cancelled},
      Preparing := {Ready, Cancelled},
      Ready := {Completed},
      Completed := {},
      Cancelled := {}]

  predicate May(current: OrderStatus, next: OrderStatus) {
    current in TRANSITIONS && next in TRANSITIONS[current]
  }

  /** The way of an order: placed, preparing, ready, completed, each from the one before; and
      cancelled as long as it is not ready. */
  predicate Leads(current: OrderStatus, next: OrderStatus) {
    match next
    case Placed => false
    case Preparing => current == Placed
    case Ready => current == Preparing
    case Completed => current == Ready
    case Cancelled => current == Placed || current == Preparing
  }

  lemma MayExactly(current: OrderStatus, next: OrderStatus)
    ensures May(current, next) <==> Leads(current, next)
  {
  }

  datatype Code = OK200 | Missing404 | Conflict409

  datatype Stage =
    | Waiting
    | Holding(current: OrderStatus)   // row locked, status read
    | Written                         // UPDATE sent, not committed
    | Replied(code: Code)
    | Died                            // the connection was lost; rolled back

  datatype Call = Call(order: int, target: OrderStatus, stage: Stage)

  /** `locks` lists the calls in the order they got their row's lock, and `history` the
      statuses each order has had; both are history. */
  datatype World = World(
    orders: map<int, OrderStatus>,
    calls: map<nat, Call>,
    locks: seq<nat>,
    history: map<int, seq<OrderStatus>>)

  datatype Step =
    | Ask(i: nat, order: int, target: OrderStatus)
    | Lock(i: nat)
    | Check(i: nat)
    | Commit(i: nat)
    | Die(i: nat)

  predicate Inside(stage: Stage) {
    stage.Holding? || stage.Written?
  }

  /** SELECT ... FOR UPDATE waits while another transaction holds the row. */
  predicate Free(w: World, order: int) {
    forall j :: j in w.calls && w.calls[j].order == order ==> !Inside(w.calls[j].stage)
  }

  predicate Enabled(w: World, step: Step, locking: bool) {
    match step
    case Ask(i, order, target) => i !in w.calls
    case Lock(i) => i in w.calls && w.calls[i].stage.Waiting? && (locking ==> Free(w, w.calls[i].order))
    case Check(i) => i in w.calls && w.calls[i].stage.Holding?
    case Commit(i) => i in w.calls && w.calls[i].stage.Written? && w.calls[i].order in w.orders
      && w.calls[i].order in w.history
    case Die(i) => i in w.calls && Inside(w.calls[i].stage)
  }

  function Put(w: World, i: nat, stage: Stage): World
    requires i in w.calls
  {
    w.(calls := w.calls[i := w.calls[i].(stage := stage)])
  }

  function Apply(w: World, step: Step, locking: bool): World
    requires Enabled(w, step, locking)
  {
    match step
    case Ask(i, order, target) => w.(calls := w.calls[i := Call(order, target, Waiting)])
    case Lock(i) =>
      var o := w.calls[i].order;
      if o !in w.orders then Put(w, i, Replied(Missing404))
      else Put(w, i, Holding(w.orders[o])).(locks := w.locks + [i])
    case Check(i) =>
      if !May(w.calls[i].stage.current, w.calls[i].target) then Put(w, i, Replied(Conflict409))
      else Put(w, i, Written)
    case Commit(i) =>
      var o, t := w.calls[i].order, w.calls[i].target;
      Put(w, i, Replied(OK200)).(orders := w.orders[o := t], history := w.history[o := w.history[o] + [t]])
    case Die(i) => Put(w, i, Died)
  }

  predicate Init(w: World) {
    && w.calls == map[] && w.locks == []
    && w.history.Keys == w.orders.Keys && forall o :: o in w.orders ==> w.history[o] == [w.orders[o]]
  }

  predicate Run(w: World, steps: seq<Step>, locking: bool)
    decreases |steps|
  {
    steps == [] || (Enabled(w, steps[0], locking) && Run(Apply(w, steps[0], locking), steps[1..], locking))
  }

  function After(w: World, steps: seq<Step>, locking: bool): World
    requires Run(w, steps, locking)
    decreases |steps|
  {
    if steps == [] then w else After(Apply(w, steps[0], locking), steps[1..], locking)
  }

  // ---- One at a time ----

  /** The status after serving the targets one after another. */
  function Status(start: OrderStatus, targets: seq<OrderStatus>): OrderStatus {
    if targets == [] then start
    else
      var s, t := Status(start, targets[..|targets| - 1]), targets[|targets| - 1];
      if May(s, t) then t else s
  }

  /** Every status on the way. */
  function Path(start: OrderStatus, targets: seq<OrderStatus>): seq<OrderStatus> {
    if targets == [] then [start]
    else
      var n := |targets| - 1;
      Path(start, targets[..n]) + if May(Status(start, targets[..n]), targets[n]) then [targets[n]] else []
  }

  /** The answers. */
  function Codes(start: OrderStatus, targets: seq<OrderStatus>): (codes: seq<Code>)
    ensures |codes| == |targets|
  {
    if targets == [] then []
    else
      var n := |targets| - 1;
      Codes(start, targets[..n]) + [if May(Status(start, targets[..n]), targets[n]) then OK200 else Conflict409]
  }

  /** The calls on an order that were answered, in the order they got the lock. */
  function Served(calls: map<nat, Call>, locks: seq<nat>, order: int): seq<nat> {
    if locks == [] then []
    else
      var rest, i := Served(calls, locks[..|locks| - 1], order), locks[|locks| - 1];
      if i in calls && calls[i].order == order && calls[i].stage.Replied? then rest + [i] else rest
  }

  function Targets(calls: map<nat, Call>, ids: seq<nat>): (ts: seq<OrderStatus>)
    requires forall k :: 0 <= k < |ids| ==> ids[k] in calls
    ensures |ts| == |ids|
  {
    seq(|ids|, k requires 0 <= k < |ids| => calls[ids[k]].target)
  }

  lemma {:induction false} ServedAre(calls: map<nat, Call>, locks: seq<nat>, order: int)
    ensures forall k :: 0 <= k < |Served(calls, locks, order)| ==>
      var i := Served(calls, locks, order)[k];
      i in calls && i in locks && calls[i].order == order && calls[i].stage.Replied?
  {
    if locks != [] { ServedAre(calls, locks[..|locks| - 1], order); }
  }

  // ---- The invariant ----

  predicate Same(w: World, order: int, start: OrderStatus, ids: seq<nat>) {
    && order in w.orders && order in w.history
    && (forall k :: 0 <= k < |ids| ==> ids[k] in w.calls && w.calls[ids[k]].stage.Replied?)
    && w.orders[order] == Status(start, Targets(w.calls, ids))
    && w.history[order] == Path(start, Targets(w.calls, ids))
    && forall k :: 0 <= k < |ids| ==> w.calls[ids[k]].stage.code == Codes(start, Targets(w.calls, ids))[k]
  }

  /** The lock's queue: each call once, and nobody locks an order while another call is inside. */
  predicate Queue(w: World) {
    && (forall k :: 0 <= k < |w.locks| ==> w.locks[k] in w.calls && !w.calls[w.locks[k]].stage.Waiting?)
    && (forall k, l :: 0 <= k < l < |w.locks| ==> w.locks[k] != w.locks[l])
    && (forall k, l :: 0 <= k < l < |w.locks| && Inside(w.calls[w.locks[k]].stage) ==>
          w.calls[w.locks[l]].order != w.calls[w.locks[k]].order)
  }

  /** A call inside has its place in the queue and has seen the status as it is. */
  predicate Knows(w: World, i: nat)
    requires i in w.calls
  {
    var c := w.calls[i];
    Inside(c.stage) ==>
      && i in w.locks && c.order in w.orders
      && (c.stage.Holding? ==> c.stage.current == w.orders[c.order])
      && (c.stage.Written? ==> May(w.orders[c.order], c.target))
  }

  /** An answer about an order that is there has been given under the lock. */
  predicate Queued(w: World) {
    forall i :: i in w.calls && w.calls[i].stage.Replied? && w.calls[i].order in w.orders ==> i in w.locks
  }

  predicate OneHolder(w: World) {
    forall i, j :: i in w.calls && j in w.calls && i != j && Inside(w.calls[i].stage) && Inside(w.calls[j].stage) ==>
      w.calls[i].order != w.calls[j].order
  }

  predicate Inv(start: map<int, OrderStatus>, w: World) {
    && w.orders.Keys == start.Keys && w.history.Keys == start.Keys
    && Queue(w) && OneHolder(w) && (forall i :: i in w.calls ==> Knows(w, i)) && Queued(w)
    && forall o :: o in start ==> Same(w, o, start[o], Served(w.calls, w.locks, o))
  }

  lemma {:induction false} ServedSame(calls: map<nat, Call>, calls': map<nat, Call>, locks: seq<nat>, order: int)
    requires forall k :: 0 <= k < |locks| ==> locks[k] in calls && locks[k] in calls'
    requires forall k :: 0 <= k < |locks| ==> calls[locks[k]].order == calls'[locks[k]].order
    requires forall k :: 0 <= k < |locks| && calls[locks[k]].order == order ==>
      calls[locks[k]].stage.Replied? == calls'[locks[k]].stage.Replied?
    ensures Served(calls', locks, order) == Served(calls, locks, order)
  {
    if locks != [] { ServedSame(calls, calls', locks[..|locks| - 1], order); }
  }

  /** Answering the call that is inside puts it behind all that were answered before. */
  lemma {:induction false} ServedGrows(calls: map<nat, Call>, locks: seq<nat>, i: nat, code: Code)
    requires i in calls && i in locks && Inside(calls[i].stage)
    requires forall k :: 0 <= k < |locks| ==> locks[k] in calls
    requires forall k, l :: 0 <= k < l < |locks| ==> locks[k] != locks[l]
    requires forall k, l :: 0 <= k < l < |locks| && locks[k] == i ==> calls[locks[l]].order != calls[i].order
    ensures Served(calls[i := calls[i].(stage := Replied(code))], locks, calls[i].order)
      == Served(calls, locks, calls[i].order) + [i]
  {
    var n, o := |locks| - 1, calls[i].order;
    var calls' := calls[i := calls[i].(stage := Replied(code))];
    if locks[n] == i {
      ServedSame(calls, calls', locks[..n], o);
    } else {
      var k :| 0 <= k < |locks| && locks[k] == i;
      assert calls[locks[n]].order != o && i == locks[..n][k];
      ServedGrows(calls, locks[..n], i, code);
    }
  }

  lemma SameStays(w: World, t: World, order: int, start: OrderStatus)
    requires Queue(w) && Same(w, order, start, Served(w.calls, w.locks, order))
    requires order in t.orders && order in t.history
    requires t.orders[order] == w.orders[order] && t.history[order] == w.history[order]
    requires forall i :: i in w.calls ==>
      i in t.calls && t.calls[i].order == w.calls[i].order && t.calls[i].target == w.calls[i].target
    requires forall i :: i in w.calls && w.calls[i].order == order ==>
      t.calls[i].stage.Replied? == w.calls[i].stage.Replied?
    requires forall i :: i in w.calls && w.calls[i].stage.Replied? ==> t.calls[i] == w.calls[i]
    requires t.locks == w.locks || exists i :: t.locks == w.locks + [i] && i in t.calls && !t.calls[i].stage.Replied?
    ensures Same(t, order, start, Served(t.calls, t.locks, order))
  {
    hide May, Status, Path, Codes;
    var ids := Served(w.calls, w.locks, order);
    ServedAre(w.calls, w.locks, order);
    ServedSame(w.calls, t.calls, w.locks, order);
    if t.locks != w.locks {
      var i :| t.locks == w.locks + [i] && i in t.calls && !t.calls[i].stage.Replied?;
      assert (w.locks + [i])[..|w.locks|] == w.locks;
    }
    assert Targets(t.calls, ids) == Targets(w.calls, ids);
  }

  lemma ServeOneMore(start: OrderStatus, targets: seq<OrderStatus>, to: OrderStatus)
    ensures var s, ok := Status(start, targets), May(Status(start, targets), to);
      && Status(start, targets + [to]) == (if ok then to else s)
      && Path(start, targets + [to]) == Path(start, targets) + (if ok then [to] else [])
      && Codes(start, targets + [to]) == Codes(start, targets) + [if ok then OK200 else Conflict409]
  {
  }

  /** The call inside is answered: one more is served, with the answer and the effect it gets
      when served after the others. */
  lemma AnswerExtends(w: World, t: World, start: OrderStatus, i: nat)
    requires Queue(w) && i in w.calls && i in w.locks && Inside(w.calls[i].stage)
    requires Same(w, w.calls[i].order, start, Served(w.calls, w.locks, w.calls[i].order))
    requires var c, o := w.calls[i], w.calls[i].order;
      var ok := May(w.orders[o], c.target);
      && o in t.orders && o in t.history && t.locks == w.locks
      && t.calls == w.calls[i := c.(stage := Replied(if ok then OK200 else Conflict409))]
      && t.orders[o] == (if ok then c.target else w.orders[o])
      && t.history[o] == w.history[o] + (if ok then [c.target] else [])
    ensures Same(t, w.calls[i].order, start, Served(t.calls, t.locks, w.calls[i].order))
  {
    hide May, Status, Path, Codes;
    var o := w.calls[i].order;
    var ids, code := Served(w.calls, w.locks, o), t.calls[i].stage.code;
    ServedAre(w.calls, w.locks, o);
    InsideIsLast(w, i);
    ServedGrows(w.calls, w.locks, i, code);
    hide Served, Queue;
    assert Targets(t.calls, ids + [i]) == Targets(w.calls, ids) + [w.calls[i].target];
    ServeOneMore(start, Targets(w.calls, ids), w.calls[i].target);
  }

  lemma InsideIsLast(w: World, i: nat)
    requires Queue(w) && i in w.calls && Inside(w.calls[i].stage)
    ensures forall k, l :: 0 <= k < l < |w.locks| && w.locks[k] == i ==> w.calls[w.locks[l]].order != w.calls[i].order
  {
  }

  lemma QueueKeeps(w: World, step: Step)
    requires Queue(w) && Enabled(w, step, true)
    ensures Queue(Apply(w, step, true))
  {
    hide May;
    var t := Apply(w, step, true);
    forall k, l | 0 <= k < l < |t.locks| && Inside(t.calls[t.locks[k]].stage)
      ensures t.calls[t.locks[l]].order != t.calls[t.locks[k]].order
    {
      if l == |w.locks| { assert Free(w, w.calls[step.i].order); }
    }
  }

  lemma QueuedKeeps(w: World, step: Step)
    requires Queued(w) && Enabled(w, step, true) && forall i :: i in w.calls ==> Knows(w, i)
    ensures Queued(Apply(w, step, true))
  {
    hide May;
    var t := Apply(w, step, true);
    assert t.orders.Keys == w.orders.Keys;
    forall i | i in t.calls && t.calls[i].stage.Replied? && t.calls[i].order in t.orders ensures i in t.locks {
      if i in w.calls { assert Knows(w, i); }
    }
  }

  lemma OneHolderKeeps(w: World, step: Step)
    requires OneHolder(w) && Enabled(w, step, true)
    ensures OneHolder(Apply(w, step, true))
  {
  }

  lemma KnowsKeeps(w: World, step: Step, i: nat)
    requires OneHolder(w) && Enabled(w, step, true) && i in Apply(w, step, true).calls
    requires forall j :: j in w.calls ==> Knows(w, j)
    ensures Knows(Apply(w, step, true), i)
  {
    hide May;
    var t := Apply(w, step, true);
    if i in w.calls {
      assert Knows(w, i);
      assert i in w.locks ==> i in t.locks;
      if step.Commit? && step.i != i && Inside(w.calls[i].stage) { assert w.calls[i].order != w.calls[step.i].order; }
    }
    if step.Lock? && step.i == i && t.locks != w.locks { assert t.locks[|w.locks|] == i; }
  }

  lemma StepKeeps(start: map<int, OrderStatus>, w: World, step: Step)
    requires Inv(start, w) && Enabled(w, step, true)
    ensures Inv(start, Apply(w, step, true))
  {
    hide May, Status, Path, Codes, Served, Targets, Same, Queue, OneHolder, Knows, Queued;
    var t := Apply(w, step, true);
    QueueKeeps(w, step);
    QueuedKeeps(w, step);
    OneHolderKeeps(w, step);
    forall i | i in t.calls ensures Knows(t, i) { KnowsKeeps(w, step, i); }
    forall o | o in start ensures Same(t, o, start[o], Served(t.calls, t.locks, o)) {
      SameAfter(start, w, step, o);
    }
  }

  lemma SameAfter(start: map<int, OrderStatus>, w: World, step: Step, o: int)
    requires Inv(start, w) && Enabled(w, step, true) && o in start
    ensures Same(Apply(w, step, true), o, start[o], Served(Apply(w, step, true).calls, Apply(w, step, true).locks, o))
  {
    hide May, Status, Path, Codes, Served, Targets, Same;
    var t := Apply(w, step, true);
    if !step.Ask? && w.calls[step.i].order == o && t.calls[step.i].stage.Replied? {
      assert Knows(w, step.i);
      AnswerExtends(w, t, start[o], step.i);
    } else {
      SameStays(w, t, o, start[o]);
    }
  }

  lemma {:induction false} RunKeeps(start: map<int, OrderStatus>, w: World, steps: seq<Step>)
    requires Inv(start, w) && Run(w, steps, true)
    ensures Inv(start, After(w, steps, true))
    decreases |steps|
  {
    hide Inv, Enabled, Apply;
    if steps != [] {
      StepKeeps(start, w, steps[0]);
      RunKeeps(start, Apply(w, steps[0], true), steps[1..]);
    }
  }

  // ---- The main results ----

  /** Whatever the schedule, and whoever dies on the way, each order's status, the statuses it
      has had and every answer are those of serving the answered calls one after another in
      the order they got the lock. */
  lemma Linearizes(w: World, steps: seq<Step>, order: int)
    requires Init(w) && Run(w, steps, true) && order in w.orders
    ensures var t := After(w, steps, true);
      Same(t, order, w.orders[order], Served(t.calls, t.locks, order))
  {
    hide Same, Run, After;
    forall o | o in w.orders ensures Same(w, o, w.orders[o], Served(w.calls, w.locks, o)) { SameAtStart(w, o); }
    RunKeeps(w.orders, w, steps);
  }

  lemma SameAtStart(w: World, o: int)
    requires Init(w) && o in w.orders
    ensures Same(w, o, w.orders[o], Served(w.calls, w.locks, o))
  {
  }

  /** How many changes a status can still see. */
  function Left(s: OrderStatus): nat {
    match s
    case Placed => 3
    case Preparing => 2
    case Ready => 1
    case _ => 0
  }

  predicate Legal(path: seq<OrderStatus>) {
    forall k :: 0 <= k < |path| - 1 ==> Leads(path[k], path[k + 1])
  }

  lemma {:induction false} PathIsLegal(start: OrderStatus, targets: seq<OrderStatus>)
    ensures var p := Path(start, targets);
      && p != [] && p[0] == start && p[|p| - 1] == Status(start, targets)
      && Legal(p) && |p| + Left(Status(start, targets)) <= 1 + Left(start)
  {
    hide May;
    if targets != [] {
      PathIsLegal(start, targets[..|targets| - 1]);
      if May(Status(start, targets[..|targets| - 1]), targets[|targets| - 1]) {
        MoveUses(Status(start, targets[..|targets| - 1]), targets[|targets| - 1]);
        MayExactly(Status(start, targets[..|targets| - 1]), targets[|targets| - 1]);
      }
    }
  }

  lemma MoveUses(s: OrderStatus, t: OrderStatus)
    requires May(s, t)
    ensures Left(t) < Left(s)
  {
  }

  function Accepted(codes: seq<Code>): set<nat> {
    set k | 0 <= k < |codes| && codes[k] == OK200
  }

  /** Every 200 makes the history one longer. */
  lemma {:induction false} PathCountsAccepted(start: OrderStatus, targets: seq<OrderStatus>)
    ensures |Path(start, targets)| == 1 + |Accepted(Codes(start, targets))|
  {
    hide May;
    if targets == [] {
      assert Accepted(Codes(start, targets)) == {};
    } else {
      var n := |targets| - 1;
      PathCountsAccepted(start, targets[..n]);
      var codes := Codes(start, targets);
      assert codes[..n] == Codes(start, targets[..n]);
      assert Accepted(codes) == Accepted(codes[..n]) + (if codes[n] == OK200 then {n} else {});
    }
  }

  /** The statuses an order has had lead along the way from the first to the current one, with
      at most three changes, one for each 200; so a placed order that is completed has been
      preparing and ready, and has taken exactly three 200s. */
  lemma HistoryIsLegal(w: World, steps: seq<Step>, order: int)
    requires Init(w) && Run(w, steps, true) && order in w.orders
    ensures var t := After(w, steps, true);
      && order in t.orders && order in t.history
      && var h, ids := t.history[order], Served(t.calls, t.locks, order);
         && 0 < |h| <= 4 && Legal(h) && h[0] == w.orders[order] && h[|h| - 1] == t.orders[order]
         && (forall k :: 0 <= k < |ids| ==> ids[k] in t.calls && t.calls[ids[k]].stage.Replied?)
         && |h| == 1 + |set k | 0 <= k < |ids| && t.calls[ids[k]].stage.code == OK200|
         && (h[0] == Placed && t.orders[order] == Completed ==> h == [Placed, Preparing, Ready, Completed])
  {
    hide Run, After, Legal, Init, May;
    Linearizes(w, steps, order);
    var t := After(w, steps, true);
    var ids, h := Served(t.calls, t.locks, order), t.history[order];
    PathIsLegal(w.orders[order], Targets(t.calls, ids));
    PathCountsAccepted(w.orders[order], Targets(t.calls, ids));
    hide Path, Status;
    assert Accepted(Codes(w.orders[order], Targets(t.calls, ids)))
      == set k | 0 <= k < |ids| && t.calls[ids[k]].stage.code == OK200;
    hide Codes;
    if h[0] == Placed && t.orders[order] == Completed { TheOnlyWay(h); }
  }

  lemma TheOnlyWay(h: seq<OrderStatus>)
    requires 0 < |h| <= 4 && Legal(h) && h[0] == Placed && h[|h| - 1] == Completed
    ensures h == [Placed, Preparing, Ready, Completed]
  {
    assert |h| > 1 ==> Leads(h[0], h[1]);
    assert |h| > 2 ==> Leads(h[1], h[2]);
    assert |h| > 3 ==> Leads(h[2], h[3]);
  }

  /** What a call is answered, given the status it finds under its lock. */
  function CodeFor(found: OrderStatus, target: OrderStatus): Code {
    if Leads(found, target) then OK200 else Conflict409
  }

  /** The statuses found by the calls one after another, and the last one left. */
  predicate Finds(start: OrderStatus, targets: seq<OrderStatus>, codes: seq<Code>, found: seq<OrderStatus>) {
    && |found| == |targets| + 1 == |codes| + 1 && found[0] == start
    && forall k :: 0 <= k < |targets| ==>
         && codes[k] == CodeFor(found[k], targets[k])
         && found[k + 1] == if codes[k] == OK200 then targets[k] else found[k]
  }

  lemma {:induction false} StatusesFound(start: OrderStatus, targets: seq<OrderStatus>)
    returns (found: seq<OrderStatus>)
    ensures Finds(start, targets, Codes(start, targets), found) && found[|targets|] == Status(start, targets)
    decreases |targets|
  {
    hide May, Leads;
    if targets == [] {
      found := [start];
    } else {
      var n := |targets| - 1;
      var before := StatusesFound(start, targets[..n]);
      MayExactly(Status(start, targets[..n]), targets[n]);
      found := before + [Status(start, targets)];
      var codes := Codes(start, targets);
      forall k | 0 <= k < |targets|
        ensures codes[k] == CodeFor(found[k], targets[k])
        ensures found[k + 1] == if codes[k] == OK200 then targets[k] else found[k]
      {
        if k < n { assert targets[..n][k] == targets[k] && codes[k] == Codes(start, targets[..n])[k]; }
      }
    }
  }

  lemma {:induction false} ServedHas(calls: map<nat, Call>, locks: seq<nat>, i: nat)
    requires i in calls && i in locks && calls[i].stage.Replied?
    ensures i in Served(calls, locks, calls[i].order)
  {
    var n := |locks| - 1;
    if locks[n] != i {
      assert i in locks[..n];
      ServedHas(calls, locks[..n], i);
    }
  }

  /** Every answered call on an order has had its turn under the lock.  One after another, each
      finds the status that the one before has left, and gets a 200 exactly when its target
      follows that status: a cancellation from placed or preparing, preparing from placed, ready
      from preparing, completed from ready, and nothing from completed or cancelled. */
  lemma AnswersFollowTheWay(w: World, steps: seq<Step>, order: int) returns (found: seq<OrderStatus>)
    requires Init(w) && Run(w, steps, true) && order in w.orders
    ensures var t := After(w, steps, true);
      var ids := Served(t.calls, t.locks, order);
      && order in t.orders && |found| == |ids| + 1 && found[0] == w.orders[order] && found[|ids|] == t.orders[order]
      && (forall k :: 0 <= k < |ids| ==>
            && ids[k] in t.calls && t.calls[ids[k]].order == order
            && t.calls[ids[k]].stage == Replied(CodeFor(found[k], t.calls[ids[k]].target))
            && found[k + 1] == if Leads(found[k], t.calls[ids[k]].target) then t.calls[ids[k]].target else found[k])
      && (forall i :: i in t.calls && t.calls[i].order == order && t.calls[i].stage.Replied? ==> i in ids)
  {
    hide Run, After, Init, May, Path, Leads, Queue, OneHolder, Knows;
    forall o | o in w.orders ensures Same(w, o, w.orders[o], Served(w.calls, w.locks, o)) { SameAtStart(w, o); }
    assert Inv(w.orders, w) by { InitIsFine(w); }
    RunKeeps(w.orders, w, steps);
    var t := After(w, steps, true);
    var ids := Served(t.calls, t.locks, order);
    ServedAre(t.calls, t.locks, order);
    found := StatusesFound(w.orders[order], Targets(t.calls, ids));
    assert Queued(t) && t.orders.Keys == w.orders.Keys;
    hide Inv, Status, Codes, Served, Queue, OneHolder, Knows;
    forall i | i in t.calls && t.calls[i].order == order && t.calls[i].stage.Replied? ensures i in ids {
      ServedHas(t.calls, t.locks, i);
    }
  }

  lemma InitIsFine(w: World)
    requires Init(w) && forall o :: o in w.orders ==> Same(w, o, w.orders[o], Served(w.calls, w.locks, o))
    ensures Inv(w.orders, w)
  {
    hide Same, Served;
  }

  lemma {:induction false} OnlyTheFirst(start: OrderStatus, targets: seq<OrderStatus>, to: OrderStatus)
    requires targets != [] && May(start, to) && forall k :: 0 <= k < |targets| ==> targets[k] == to
    ensures Status(start, targets) == to
    ensures forall k :: 0 <= k < |targets| ==> Codes(start, targets)[k] == if k == 0 then OK200 else Conflict409
  {
    var n := |targets| - 1;
    if n == 0 {
      assert targets[..n] == [];
    } else {
      OnlyTheFirst(start, targets[..n], to);
      assert !May(to, to);
    }
  }

  /** Of any number of calls racing for the same allowed change, exactly the first to get the
      lock has it, and the others get 409. */
  lemma OneWins(w: World, steps: seq<Step>, order: int, to: OrderStatus)
    requires Init(w) && Run(w, steps, true) && order in w.orders && Leads(w.orders[order], to)
    requires forall k :: 0 <= k < |steps| && steps[k].Ask? && steps[k].order == order ==> steps[k].target == to
    ensures var t := After(w, steps, true);
      var ids := Served(t.calls, t.locks, order);
      && (forall k :: 0 <= k < |ids| ==>
            ids[k] in t.calls && t.calls[ids[k]].stage == Replied(if k == 0 then OK200 else Conflict409))
      && (ids != [] ==> order in t.orders && t.orders[order] == to)
  {
    hide Run, After, May, Status, Codes, Path, Init;
    Linearizes(w, steps, order);
    var t := After(w, steps, true);
    var ids := Served(t.calls, t.locks, order);
    ServedAre(t.calls, t.locks, order);
    NoCalls(w);
    AllAimAt(w, steps, order, to);
    MayExactly(w.orders[order], to);
    if ids != [] { OnlyTheFirst(w.orders[order], Targets(t.calls, ids), to); }
  }

  lemma NoCalls(w: World)
    requires Init(w)
    ensures w.calls == map[]
  {
  }

  lemma {:induction false} AllAimAt(w: World, steps: seq<Step>, order: int, to: OrderStatus)
    requires Run(w, steps, true)
    requires forall i :: i in w.calls && w.calls[i].order == order ==> w.calls[i].target == to
    requires forall k :: 0 <= k < |steps| && steps[k].Ask? && steps[k].order == order ==> steps[k].target == to
    ensures var t := After(w, steps, true);
      forall i :: i in t.calls && t.calls[i].order == order ==> t.calls[i].target == to
    decreases |steps|
  {
    hide May, Enabled, Apply;
    if steps != [] {
      AimsStay(w, steps[0], order, to);
      var t := Apply(w, steps[0], true);
      AllAimAt(t, steps[1..], order, to);
      assert After(w, steps, true) == After(t, steps[1..], true);
    }
  }

  lemma AimsStay(w: World, step: Step, order: int, to: OrderStatus)
    requires Enabled(w, step, true) && (step.Ask? && step.order == order ==> step.target == to)
    requires forall i :: i in w.calls && w.calls[i].order == order ==> w.calls[i].target == to
    ensures var t := Apply(w, step, true);
      forall i :: i in t.calls && t.calls[i].order == order ==> t.calls[i].target == to
  {
  }

  /** Without the row lock two staff can both pass the check: the order goes from preparing to
      ready and then, after a change that is not allowed, to cancelled. */
  lemma WithoutLockBothPass(w: World, order: int)
    requires Init(w) && order in w.orders && w.orders[order] == Preparing
    ensures var steps :=
        [Ask(0, order, Ready), Ask(1, order, Cancelled), Lock(0), Lock(1), Check(0), Check(1), Commit(0), Commit(1)];
      && Run(w, steps, false)
      && var t := After(w, steps, false);
         && t.calls.Keys == {0, 1} && t.calls[0].stage == Replied(OK200) && t.calls[1].stage == Replied(OK200)
         && order in t.history && t.history[order] == [Preparing, Ready, Cancelled] && !Legal(t.history[order])
  {
    hide Run, After, Legal, Apply, Enabled, Init, May;
    var ask := [Ask(0, order, Ready), Ask(1, order, Cancelled)];
    var pass := [Lock(0), Lock(1), Check(0), Check(1)];
    var commit := [Commit(0), Commit(1)];
    var a := BothAsk(w, order);
    var b := BothCheck(a, order);
    var c := BothCommit(b, order);
    Joined(w, ask, pass);
    Joined(w, ask + pass, commit);
    assert ask + pass + commit
      == [Ask(0, order, Ready), Ask(1, order, Cancelled), Lock(0), Lock(1), Check(0), Check(1), Commit(0), Commit(1)];
    NotLegal();
  }

  lemma BothAsk(w: World, order: int) returns (t: World)
    requires Init(w) && order in w.orders && w.orders[order] == Preparing
    ensures var steps := [Ask(0, order, Ready), Ask(1, order, Cancelled)];
      Run(w, steps, false) && After(w, steps, false) == t
    ensures t.orders == w.orders && order in t.history && t.history[order] == [Preparing]
    ensures t.calls == map[0 := Call(order, Ready, Waiting), 1 := Call(order, Cancelled, Waiting)]
  {
    hide Run, After;
    var u := Apply(w, Ask(0, order, Ready), false);
    t := Apply(u, Ask(1, order, Cancelled), false);
    hide Apply, Enabled;
    Played([w, u, t], [Ask(0, order, Ready), Ask(1, order, Cancelled)]);
  }

  lemma BothCheck(w: World, order: int) returns (t: World)
    requires order in w.orders && w.orders[order] == Preparing
    requires w.calls == map[0 := Call(order, Ready, Waiting), 1 := Call(order, Cancelled, Waiting)]
    ensures var steps := [Lock(0), Lock(1), Check(0), Check(1)]; Run(w, steps, false) && After(w, steps, false) == t
    ensures t.orders == w.orders && t.history == w.history
    ensures t.calls == map[0 := Call(order, Ready, Written), 1 := Call(order, Cancelled, Written)]
  {
    hide Run, After;
    var w1 := Apply(w, Lock(0), false);
    var w2 := Apply(w1, Lock(1), false);
    var w3 := Apply(w2, Check(0), false);
    t := Apply(w3, Check(1), false);
    hide Apply, Enabled;
    Played([w, w1, w2, w3, t], [Lock(0), Lock(1), Check(0), Check(1)]);
  }

  lemma BothCommit(w: World, order: int) returns (t: World)
    requires order in w.orders && order in w.history && w.history[order] == [Preparing]
    requires w.calls == map[0 := Call(order, Ready, Written), 1 := Call(order, Cancelled, Written)]
    ensures var steps := [Commit(0), Commit(1)]; Run(w, steps, false) && After(w, steps, false) == t
    ensures t.calls == map[0 := Call(order, Ready, Replied(OK200)), 1 := Call(order, Cancelled, Replied(OK200))]
    ensures order in t.history && t.history[order] == [Preparing, Ready, Cancelled]
  {
    hide Run, After;
    var u := Apply(w, Commit(0), false);
    t := Apply(u, Commit(1), false);
    hide Apply, Enabled;
    Played([w, u, t], [Commit(0), Commit(1)]);
  }

  lemma {:induction false} Joined(w: World, first: seq<Step>, second: seq<Step>)
    requires Run(w, first, false) && Run(After(w, first, false), second, false)
    ensures Run(w, first + second, false)
    ensures After(w, first + second, false) == After(After(w, first, false), second, false)
    decreases |first|
  {
    hide Enabled, Apply;
    if first == [] {
      assert first + second == second;
    } else {
      assert (first + second)[1..] == first[1..] + second;
      Joined(Apply(w, first[0], false), first[1..], second);
    }
  }

  lemma NotLegal()
    ensures !Legal([Preparing, Ready, Cancelled])
  {
    var p := [Preparing, Ready, Cancelled];
    assert !Leads(p[1], p[2]);
  }

  predicate Follows(w: World, step: Step, t: World) {
    Enabled(w, step, false) && t == Apply(w, step, false)
  }

  lemma {:induction false} Played(ws: seq<World>, steps: seq<Step>)
    requires |ws| == |steps| + 1 && forall k :: 0 <= k < |steps| ==> Follows(ws[k], steps[k], ws[k + 1])
    ensures Run(ws[0], steps, false) && After(ws[0], steps, false) == ws[|steps|]
    decreases |steps|
  {
    hide Enabled, Apply;
    if steps != [] {
      assert Follows(ws[0], steps[0], ws[1]);
      Played(ws[1..], steps[1..]);
    }
  }

  lemma AllListed(s: OrderStatus)
    ensures s in TRANSITIONS
  {
  }

  /** advance_status on the orders table, with nobody else at work. */
  class Table {
    var rows: map<int, OrderStatus>

    constructor (rows: map<int, OrderStatus>)
      ensures this.rows == rows
    {
      this.rows := rows;
    }

    method AdvanceStatus(id: int, next: OrderStatus) returns (code: Code)
      modifies this
      ensures code == Missing404 <==> id !in old(rows)
      ensures id !in old(rows) ==> rows == old(rows)
      ensures id in old(rows) ==> code == Codes(old(rows)[id], [next])[0] == CodeFor(old(rows)[id], next)
      ensures id in old(rows) ==> rows == old(rows)[id := Status(old(rows)[id], [next])]
      ensures code == OK200 ==> rows == old(rows)[id := next]
      ensures code != OK200 ==> rows == old(rows)
    {
      assert [next][..0] == [];
      if id in rows { MayExactly(rows[id], next); }
      if id !in rows { return Missing404; }
      var current := rows[id];
      assert rows[id := current] == rows;
      AllListed(current);
      if next !in TRANSITIONS[current] { return Conflict409; }
      rows := rows[id := next];
      return OK200;
    }
  }
}
