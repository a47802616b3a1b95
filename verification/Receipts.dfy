/** What the answers of creating an order mean, in any run: an order that is there is the
    receipt for its request, and a request that was refused had a reason to be. */
module Receipts {
  import opened Store
  import opened Checkout

  // ---- The checks ----

  /** Why the rows do not do: the restaurant or the reservation is not there, or the
      reservation is somebody else's. */
  predicate RowsRefuse(c: Catalog, p: Payload, code: Code) {
    match code
    case Missing404 =>
      p.restaurant !in c.restaurants || (p.reservation.Some? && p.reservation.value !in c.owners)
    case Forbidden403 =>
      && p.restaurant in c.restaurants && p.reservation.Some?
      && p.reservation.value in c.owners && c.owners[p.reservation.value] != p.user
    case _ => false
  }

  predicate Listed(menu: Menu, item: Item) {
    item.product in menu && LowerCase(item.product)
  }

  /** Why the products do not do: one is not there under this id, else one belongs to another
      restaurant, else one is not available. */
  predicate ProductsRefuse(menu: Menu, p: Payload, code: Code) {
    match code
    case Missing404 => exists k :: 0 <= k < |p.items| && !Listed(menu, p.items[k])
    case BadRequest400 =>
      && (forall k :: 0 <= k < |p.items| ==> Listed(menu, p.items[k]))
      && exists k :: 0 <= k < |p.items| && menu[p.items[k].product].restaurant != p.restaurant
    case Conflict409 =>
      && (forall k :: 0 <= k < |p.items| ==>
            Listed(menu, p.items[k]) && menu[p.items[k].product].restaurant == p.restaurant)
      && exists k :: 0 <= k < |p.items| && menu[p.items[k].product].available != Some(true)
    case _ => false
  }

  lemma RowsRefuseExactly(c: Catalog, p: Payload, code: Code)
    ensures CheckRows(c, p) == Some(code) <==> RowsRefuse(c, p, code)
  {
  }

  lemma FoundIsListed(menu: Menu, p: Payload, k: nat)
    requires k < |p.items|
    ensures p.items[k].product in Found(menu, p.items) <==> Listed(menu, p.items[k])
    ensures p.items[k].product in Found(menu, p.items) ==>
      Found(menu, p.items)[p.items[k].product] == menu[p.items[k].product]
  {
    hide Lower, LowerCase;
    var id := p.items[k].product;
    LowerExactly(id);
    if id in Found(menu, p.items) { WantedIsLower(p.items, id); }
    if Listed(menu, p.items[k]) { assert Wanted(p.items, id); }
  }

  /** With every item listed, the documents found are those of the items. */
  lemma FoundIsWanted(menu: Menu, p: Payload, id: string)
    requires forall k :: 0 <= k < |p.items| ==> Listed(menu, p.items[k])
    requires id in Found(menu, p.items)
    ensures exists k :: 0 <= k < |p.items| && p.items[k].product == id
  {
    forall item | Listed(menu, item) ensures Lower(item.product) == item.product { LowerExactly(item.product); }
    hide Lower, LowerCase;
    var k :| 0 <= k < |p.items| && Lower(p.items[k].product) == id;
    assert Listed(menu, p.items[k]);
  }

  lemma ProductsRefuseExactly(menu: Menu, p: Payload, code: Code)
    ensures CheckProducts(Found(menu, p.items), p) == Some(code) <==> ProductsRefuse(menu, p, code)
  {
    hide Found, Listed;
    var found := Found(menu, p.items);
    forall k | 0 <= k < |p.items|
      ensures p.items[k].product in found <==> Listed(menu, p.items[k])
      ensures p.items[k].product in found ==>
        p.items[k].product in menu && found[p.items[k].product] == menu[p.items[k].product]
    {
      FoundIsListed(menu, p, k);
      ListedIsThere(menu, p.items[k]);
    }
    if forall k :: 0 <= k < |p.items| ==> Listed(menu, p.items[k]) {
      forall id | id in found ensures exists k :: 0 <= k < |p.items| && p.items[k].product == id {
        FoundIsWanted(menu, p, id);
      }
    }
  }

  lemma ListedIsThere(menu: Menu, item: Item)
    ensures Listed(menu, item) ==> item.product in menu
  {
  }

  // ---- Along a run ----

  predicate Menued(w: World, p: Payload, found: Menu) {
    exists j :: 0 <= j < |w.menus| && found == Found(w.menus[j], p.items)
  }

  predicate RowsPassed(w: World, p: Payload) {
    Valid(p) && exists j :: 0 <= j < |w.catalogs| && CheckRows(w.catalogs[j], p) == None
  }

  predicate Refused(w: World, p: Payload, code: Code) {
    || (code == Unprocessable422 && !Valid(p))
    || (Valid(p) && exists j :: 0 <= j < |w.catalogs| && CheckRows(w.catalogs[j], p) == Some(code))
    || (RowsPassed(w, p)
        && exists j :: 0 <= j < |w.menus| && CheckProducts(Found(w.menus[j], p.items), p) == Some(code))
  }

  /** What a call has read. */
  predicate Knows(w: World, c: Call) {
    && (c.stage.Checked? || c.stage.Priced? || c.found.Some? ==> RowsPassed(w, c.payload))
    && (c.found.Some? ==> Menued(w, c.payload, c.found.value))
    && (c.stage.Replied? && c.stage.code != Created201 && c.stage.code != Error500 ==>
          Refused(w, c.payload, c.stage.code))
  }

  predicate Histories(w: World) {
    w.menus != [] && w.menus[|w.menus| - 1] == w.menu && w.catalogs != [] && w.catalogs[|w.catalogs| - 1] == w.catalog
  }

  predicate Inv(w: World) {
    Histories(w) && forall i :: i in w.calls ==> Knows(w, w.calls[i])
  }

  predicate Grows(w: World, t: World) {
    w.menus <= t.menus && w.catalogs <= t.catalogs
  }

  lemma KnowsStays(w: World, t: World, c: Call)
    requires Grows(w, t) && Knows(w, c)
    ensures Knows(t, c)
  {
    hide CheckRows, CheckProducts, Found, Valid;
    assert forall j :: 0 <= j < |w.menus| ==> t.menus[j] == w.menus[j];
    assert forall j :: 0 <= j < |w.catalogs| ==> t.catalogs[j] == w.catalogs[j];
  }

  lemma CheckKnows(w: World, i: nat)
    requires Histories(w) && i in w.calls && w.calls[i].stage.Asked? && Knows(w, w.calls[i])
    ensures Knows(DoCheck(w, i), DoCheck(w, i).calls[i])
  {
    hide CheckRows, CheckProducts, Found, Valid;
    assert w.catalogs[|w.catalogs| - 1] == w.catalog;
  }

  lemma ReadKnows(w: World, i: nat, works: bool)
    requires Histories(w) && i in w.calls && w.calls[i].stage.Checked? && Knows(w, w.calls[i])
    ensures Knows(DoReadMenu(w, i, works), DoReadMenu(w, i, works).calls[i])
  {
    hide CheckRows, CheckProducts, Found, Valid;
    assert w.menus[|w.menus| - 1] == w.menu;
    assert RowsPassed(w, w.calls[i].payload);
    assert Menued(w, w.calls[i].payload, Found(w.menu, w.calls[i].payload.items));
    hide RowsPassed, Menued;
  }

  lemma StepKeeps(w: World, step: Step)
    requires Inv(w) && Enabled(w, step)
    ensures Inv(Apply(w, step))
  {
    hide CheckRows, CheckProducts, Found, Valid, OrderOf, AllFound, Saves, Knows;
    var t := Apply(w, step);
    assert Grows(w, t);
    forall i | i in t.calls ensures Knows(t, t.calls[i]) {
      if i in w.calls { KnowsStays(w, t, w.calls[i]); }
      if i !in w.calls || t.calls[i] != w.calls[i] { MoverKnows(w, step, i); }
    }
  }

  lemma MoverKnows(w: World, step: Step, i: nat)
    requires Histories(w) && Enabled(w, step) && i in Apply(w, step).calls && (i in w.calls ==> Knows(w, w.calls[i]))
    requires i !in w.calls || Apply(w, step).calls[i] != w.calls[i]
    ensures Knows(Apply(w, step), Apply(w, step).calls[i])
  {
    hide CheckRows, CheckProducts, Found, Valid, OrderOf, AllFound, Saves, RowsPassed, Menued, Refused, DoCheck,
      DoReadMenu;
    match step {
      case Ask(_, _) =>
      case Check(k) => CheckStaysWithin(w, k, i); CheckKnows(w, k);
      case ReadMenu(k, works) => ReadStaysWithin(w, k, works, i); ReadKnows(w, k, works);
      case Save(k, id) => SaveStaysWithin(w, k, id, i); EndKnows(w, Apply(w, step), k);
      case Log(k, _) => EndKnows(w, Apply(w, step), k);
      case Die(k) => EndKnows(w, Apply(w, step), k);
      case ChangeMenu(_) =>
      case ChangeRows(_) =>
    }
  }

  lemma EndKnows(w: World, t: World, i: nat)
    requires i in w.calls && i in t.calls && Knows(w, w.calls[i]) && t.menus == w.menus && t.catalogs == w.catalogs
    requires t.calls[i].payload == w.calls[i].payload && t.calls[i].found == w.calls[i].found
    requires var stage := t.calls[i].stage;
      || stage.Died? || (stage.Saved? && w.calls[i].stage.Priced?)
      || stage == Replied(Created201) || stage == Replied(Error500)
    ensures Knows(t, t.calls[i])
  {
    hide CheckRows, CheckProducts, Found, Valid;
  }

  lemma {:induction false} RunKeeps(w: World, steps: seq<Step>)
    requires Inv(w) && Run(w, steps)
    ensures Inv(After(w, steps))
    decreases |steps|
  {
    hide Inv, Enabled, Apply;
    if steps != [] {
      StepKeeps(w, steps[0]);
      RunKeeps(Apply(w, steps[0]), steps[1..]);
    }
  }

  /** Each item can be sold there, and the reservation is the user's. */
  predicate InOrder(c: Catalog, menu: Menu, p: Payload) {
    && Valid(p) && p.restaurant in c.restaurants
    && (p.reservation.Some? ==> p.reservation.value in c.owners && c.owners[p.reservation.value] == p.user)
    && forall k :: 0 <= k < |p.items| ==>
         && Listed(menu, p.items[k]) && menu[p.items[k].product].restaurant == p.restaurant
         && menu[p.items[k].product].available == Some(true)
  }

  /** However requests race, fail or die, and however menu and rows change under them: every
      order a request has left is its receipt, item by item, at the prices of a menu there has
      been, and passes that menu and rows there have been; and every request that was refused
      has been refused by some rows or some menu, with the code that says why. */
  lemma OrdersAreReceipts(w: World, steps: seq<Step>, i: nat)
    requires Init(w) && Run(w, steps)
    ensures var t := After(w, steps);
      i in t.calls ==>
        var c := t.calls[i];
        && (c.id.Some? ==> c.id.value in t.orders && exists j, k ::
              (0 <= j < |t.menus| && 0 <= k < |t.catalogs|
              && Receipt(t.menus[j], c.payload, t.orders[c.id.value]) && InOrder(t.catalogs[k], t.menus[j], c.payload)))
        && (c.stage.Replied? ==> WhyReplied(t, c.payload, c.stage.code))
  {
    hide Run, After, Apply, Enabled, CallFine, Knows, Receipt, InOrder, WhyReplied;
    RunKeeps(w, steps);
    Checkout.RunKeeps(w, w.orders, steps);
    var t := After(w, steps);
    if i in t.calls {
      CallIsRight(t, w.orders, i);
    }
  }

  predicate WhyReplied(w: World, p: Payload, code: Code) {
    match code
    case Created201 => true
    case Error500 => true
    case Unprocessable422 => !Valid(p)
    case _ =>
      && Valid(p)
      && ((exists j :: 0 <= j < |w.catalogs| && RowsRefuse(w.catalogs[j], p, code))
          || (exists j :: 0 <= j < |w.menus| && ProductsRefuse(w.menus[j], p, code)))
  }

  lemma CallIsRight(t: World, start: map<int, Order>, i: nat)
    requires i in t.calls && CallFine(t, start, i) && Knows(t, t.calls[i])
    ensures var c := t.calls[i];
      && (c.id.Some? ==> c.id.value in t.orders && exists j, k ::
            (0 <= j < |t.menus| && 0 <= k < |t.catalogs|
            && Receipt(t.menus[j], c.payload, t.orders[c.id.value]) && InOrder(t.catalogs[k], t.menus[j], c.payload)))
      && (c.stage.Replied? ==> WhyReplied(t, c.payload, c.stage.code))
  {
    hide CheckRows, CheckProducts, Found, Receipt, InOrder, RowsRefuse, ProductsRefuse, Valid, OrderOf, AllFound, Saves;
    var c := t.calls[i];
    var p := c.payload;
    if c.id.Some? {
      var j :| 0 <= j < |t.menus| && c.found.value == Found(t.menus[j], p.items);
      var k :| 0 <= k < |t.catalogs| && CheckRows(t.catalogs[k], p) == None;
      OrderIsRight(c.found.value, p);
      ReceiptOf(t.menus[j], p, t.orders[c.id.value]);
      Passed(t.catalogs[k], t.menus[j], p);
    }
    if c.stage.Replied? { ReplyIsRight(t, p, c.stage.code); }
  }

  lemma ReceiptOf(menu: Menu, p: Payload, o: Order)
    requires Receipt(Found(menu, p.items), p, o)
    ensures Receipt(menu, p, o)
  {
    hide IsLineOf, AddsUp, Wanted;
  }

  lemma Passed(c: Catalog, menu: Menu, p: Payload)
    requires Valid(p) && CheckRows(c, p) == None && CheckProducts(Found(menu, p.items), p) == None
    ensures InOrder(c, menu, p)
  {
    hide Found, CheckProducts, Valid, LowerCase;
    PassesExactly(c, menu, p);
  }

  lemma ReplyIsRight(w: World, p: Payload, code: Code)
    requires code != Created201 && code != Error500 ==> Refused(w, p, code)
    ensures WhyReplied(w, p, code)
  {
    hide CheckRows, CheckProducts, Found, RowsRefuse, ProductsRefuse, Valid;
    forall j | 0 <= j < |w.catalogs|
      ensures CheckRows(w.catalogs[j], p) == Some(code) <==> RowsRefuse(w.catalogs[j], p, code)
    {
      RowsRefuseExactly(w.catalogs[j], p, code);
    }
    forall j | 0 <= j < |w.menus|
      ensures CheckProducts(Found(w.menus[j], p.items), p) == Some(code) <==> ProductsRefuse(w.menus[j], p, code)
    {
      ProductsRefuseExactly(w.menus[j], p, code);
    }
    NotUnprocessable(w, p);
  }

  lemma NotUnprocessable(w: World, p: Payload)
    ensures forall j :: 0 <= j < |w.catalogs| ==> !RowsRefuse(w.catalogs[j], p, Unprocessable422)
    ensures forall j :: 0 <= j < |w.menus| ==> !ProductsRefuse(w.menus[j], p, Unprocessable422)
  {
  }

  // ---- One request alone ----

  function LoneSteps(i: nat, p: Payload, id: int): seq<Step> {
    [Ask(i, p), Check(i), ReadMenu(i, true), Save(i, id), Log(i, true)]
  }

  lemma OrderFound(c: Catalog, menu: Menu, p: Payload)
    requires InOrder(c, menu, p)
    ensures CheckRows(c, p) == None && CheckProducts(Found(menu, p.items), p) == None
    ensures AllFound(Found(menu, p.items), p.items)
  {
    hide Found, CheckProducts, CheckRows, Valid, LowerCase;
    PassesExactly(c, menu, p);
    forall k | 0 <= k < |p.items| ensures p.items[k].product in Found(menu, p.items) { FoundIsListed(menu, p, k); }
  }

  /** With nobody in between, a request that is in order, at unit prices of at most 39,999.99,
      is answered with 201, and its receipt is the one order that is new. */
  lemma LoneOrderIsTaken(w: World, i: nat, p: Payload, id: int)
    requires i !in w.calls && id !in w.orders && InOrder(w.catalog, w.menu, p)
    requires forall product :: product in w.menu ==> 0.0 <= w.menu[product].price <= 39_999.99
    ensures var steps := LoneSteps(i, p, id);
      && Run(w, steps)
      && var t := After(w, steps);
         && i in t.calls && t.calls[i].stage == Replied(Created201)
         && id in t.orders && t.orders == w.orders[id := t.orders[id]] && Receipt(w.menu, p, t.orders[id])
         && t.events == w.events + [Event(p.user, id, p.restaurant, |p.items|, t.orders[id].total)]
  {
    hide Found, CheckProducts, CheckRows, Run, After, Receipt;
    var found := Found(w.menu, p.items);
    OrderFound(w.catalog, w.menu, p);
    hide InOrder;
    var order := OrderOf(found, p);
    OrderIsRight(found, p);
    ReceiptOf(w.menu, p, order);
    assert Saves(order) by { SubMenu(w.menu, p.items); OrderFits(found, p); }
    hide OrderOf, Saves, AllFound;
    var t := LoneRun(w, i, p, id, found, order);
  }

  lemma LoneRun(w: World, i: nat, p: Payload, id: int, found: Menu, order: Order) returns (t: World)
    requires i !in w.calls && id !in w.orders && Valid(p) && CheckRows(w.catalog, p) == None
    requires found == Found(w.menu, p.items) && CheckProducts(found, p) == None && AllFound(found, p.items)
    requires order == OrderOf(found, p) && Saves(order)
    ensures Run(w, LoneSteps(i, p, id)) && t == After(w, LoneSteps(i, p, id))
    ensures i in t.calls && t.calls[i].stage == Replied(Created201) && t.orders == w.orders[id := order]
    ensures t.events == w.events + [Event(p.user, id, order.restaurant, |order.lines|, order.total)]
  {
    hide Found, CheckProducts, CheckRows, Run, After, OrderOf, Saves, AllFound, Valid;
    var w1 := w.(calls := w.calls[i := Call(p, Asked, None, None)]);
    var w2 := w.(calls := w.calls[i := Call(p, Checked, None, None)]);
    var w3 := w.(calls := w.calls[i := Call(p, Priced(order), Some(found), None)]);
    var w4 := w.(calls := w.calls[i := Call(p, Saved(order), Some(found), Some(id))], orders := w.orders[id := order]);
    t := w4.(
      calls := w.calls[i := Call(p, Replied(Created201), Some(found), Some(id))],
      events := w.events + [Event(p.user, id, order.restaurant, |order.lines|, order.total)]);
    assert Follows(w, Ask(i, p), w1) && Follows(w1, Check(i), w2) && Follows(w2, ReadMenu(i, true), w3);
    assert Follows(w3, Save(i, id), w4) && Follows(w4, Log(i, true), t);
    hide Follows;
    Played([w, w1, w2, w3, w4, t], LoneSteps(i, p, id));
  }

  lemma SubMenu(menu: Menu, items: seq<Item>)
    ensures forall id :: id in Found(menu, items) ==> id in menu && Found(menu, items)[id] == menu[id]
  {
  }

  predicate Follows(w: World, step: Step, t: World) {
    Enabled(w, step) && t == Apply(w, step)
  }

  lemma {:induction false} Played(ws: seq<World>, steps: seq<Step>)
    requires |ws| == |steps| + 1 && forall k :: 0 <= k < |steps| ==> Follows(ws[k], steps[k], ws[k + 1])
    ensures Run(ws[0], steps) && After(ws[0], steps) == ws[|steps|]
    decreases |steps|
  {
    hide Enabled, Apply;
    if steps != [] {
      assert Follows(ws[0], steps[0], ws[1]);
      Played(ws[1..], steps[1..]);
    }
  }
}
