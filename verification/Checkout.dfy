/** Creating an order across two databases: the checks, the decimal total, and
    what is left behind when a request fails or dies at any step. */
module Checkout {
  import opened Store

  datatype Product = Product(restaurant: int, name: string, price: real, available: Option<bool>)

  /** The products by their id, 24 hexadecimal digits in lower case. */
  type Menu = map<string, Product>

  datatype Item = Item(product: string, quantity: int)

  datatype Payload = Payload(user: int, restaurant: int, reservation: Option<int>, items: seq<Item>)

  /** unit is in cents. */
  datatype Line = Line(product: string, name: string, unit: int, quantity: int)

  datatype Order = Order(user: int, restaurant: int, reservation: Option<int>, lines: seq<Line>, total: int)

  datatype Code = Created201 | BadRequest400 | Forbidden403 | Missing404 | Conflict409 | Unprocessable422 | Error500

  /** What PostgreSQL has: restaurants, and the owner of each reservation. */
  datatype Catalog = Catalog(restaurants: set<int>, owners: map<int, int>)

  // ---- Money ----

  /** `Decimal(str(price)).quantize(Decimal("0.01"))`, in cents: half to even. */
  function Cents(price: real): int {
    var x := price * 100.0;
    var f := x.Floor;
    var d := x - f as real;
    if d < 0.5 then f else if d > 0.5 then f + 1 else if f % 2 == 0 then f else f + 1
  }

  /** The nearest cent, and of two equally near ones the even one. */
  predicate NearestCent(price: real, c: int) {
    && c as real - 0.5 <= price * 100.0 <= c as real + 0.5
    && (price * 100.0 == c as real - 0.5 || price * 100.0 == c as real + 0.5 ==> c % 2 == 0)
  }

  /** No other number of cents is the nearest in this sense. */
  lemma CentsIsNearest(price: real, c: int)
    ensures Cents(price) == c <==> NearestCent(price, c)
  {
  }

  /** A price kept with two decimals is taken over as it is. */
  lemma CentsOfCents(c: int)
    ensures Cents(c as real / 100.0) == c
  {
  }

  function Total(lines: seq<Line>): int {
    if lines == [] then 0 else Total(lines[..|lines| - 1]) + lines[|lines| - 1].unit * lines[|lines| - 1].quantity
  }

  lemma {:induction false} TotalSplits(a: seq<Line>, b: seq<Line>)
    ensures Total(a + b) == Total(a) + Total(b)
    decreases |b|
  {
    if b == [] {
      assert a + b == a;
    } else {
      assert (a + b)[..|a + b| - 1] == a + b[..|b| - 1];
      TotalSplits(a, b[..|b| - 1]);
    }
  }

  lemma Without(lines: seq<Line>, k: nat)
    requires k < |lines|
    ensures var rest := lines[..k] + lines[k + 1..];
      && multiset(rest) == multiset(lines) - multiset{lines[k]}
      && Total(lines) == Total(rest) + lines[k].unit * lines[k].quantity
  {
    var x := lines[k];
    assert lines == lines[..k] + [x] + lines[k + 1..];
    TotalSplits(lines[..k] + [x], lines[k + 1..]);
    TotalSplits(lines[..k], [x]);
    TotalSplits(lines[..k], lines[k + 1..]);
    assert Total([x]) == x.unit * x.quantity by { assert [x][..0] == []; }
  }

  /** The order of the items does not matter. */
  lemma {:induction false} TotalOfPermutation(a: seq<Line>, b: seq<Line>)
    requires multiset(a) == multiset(b)
    ensures Total(a) == Total(b)
    decreases |a|
  {
    hide Total;
    if a == [] {
      assert |multiset(b)| == 0;
      assert b == [];
    } else {
      assert a[0] in multiset(b);
      var k :| 0 <= k < |b| && b[k] == a[0];
      Without(a, 0);
      Without(b, k);
      TotalOfPermutation(a[..0] + a[1..], b[..k] + b[k + 1..]);
    }
  }

  /** NUMERIC(10, 2), and the two checks that it is not negative. */
  predicate Storable(cents: int) {
    0 <= cents <= 99_999_999_99
  }

  predicate Saves(o: Order) {
    Storable(o.total) && forall k :: 0 <= k < |o.lines| ==> Storable(o.lines[k].unit)
  }

  /** Ten digits, two of them behind the point, and nothing negative. */
  lemma SavesExactly(o: Order)
    ensures Saves(o) <==>
      && 0 <= o.total < 100_000_000_00
      && forall k :: 0 <= k < |o.lines| ==> 0 <= o.lines[k].unit < 100_000_000_00
  {
  }

  const MAX_ITEMS := 50
  const MAX_QUANTITY := 50

  predicate Valid(p: Payload) {
    && 0 < |p.items| <= MAX_ITEMS
    && forall k :: 0 <= k < |p.items| ==> 0 < p.items[k].quantity <= MAX_QUANTITY
  }

  lemma ValidExactly(p: Payload)
    ensures Valid(p) <==>
      && 1 <= |p.items| <= 50
      && forall k :: 0 <= k < |p.items| ==> 1 <= p.items[k].quantity <= 50
  {
  }

  lemma {:induction false} TotalAtMost(lines: seq<Line>, cap: int)
    requires forall k :: 0 <= k < |lines| ==> 0 <= lines[k].unit <= cap && 0 < lines[k].quantity <= MAX_QUANTITY
    ensures 0 <= Total(lines) <= |lines| * (cap * MAX_QUANTITY)
    decreases |lines|
  {
    if lines != [] {
      var n := |lines| - 1;
      TotalAtMost(lines[..n], cap);
      var l := lines[n];
      LineAtMost(l.unit, l.quantity, cap);
      assert |lines| * (cap * MAX_QUANTITY) == n * (cap * MAX_QUANTITY) + cap * MAX_QUANTITY;
    }
  }

  lemma LineAtMost(unit: int, quantity: int, cap: int)
    requires 0 <= unit <= cap && 0 < quantity <= MAX_QUANTITY
    ensures 0 <= unit * quantity <= cap * MAX_QUANTITY
  {
  }

  // ---- The checks and the order ----

  /** `{str(doc["_id"]): doc}` of the documents whose id is one of the items'. */
  function Found(menu: Menu, items: seq<Item>): Menu {
    map id | id in menu && Wanted(items, id) :: menu[id]
  }

  predicate Wanted(items: seq<Item>, id: string) {
    exists k :: 0 <= k < |items| && Lower(items[k].product) == id
  }

  lemma WantedIsLower(items: seq<Item>, id: string)
    requires Wanted(items, id)
    ensures Lower(id) == id
  {
  }

  function LowerHex(c: char): char {
    if 'A' <= c <= 'F' then (c as int + 32) as char else c
  }

  /** An ObjectId prints in lower case. */
  function Lower(id: string): string {
    seq(|id|, k requires 0 <= k < |id| => LowerHex(id[k]))
  }

  /** No digit is written in upper case. */
  predicate LowerCase(id: string) {
    forall k :: 0 <= k < |id| ==> !('A' <= id[k] <= 'F')
  }

  lemma LowerExactly(id: string)
    ensures Lower(id) == id <==> LowerCase(id)
    ensures |Lower(id)| == |id|
    ensures forall k :: 0 <= k < |id| && 'A' <= id[k] <= 'F' ==>
      Lower(id)[k] as int - 'a' as int == id[k] as int - 'A' as int
  {
    forall k | 0 <= k < |id| ensures LowerHex(id[k]) == id[k] <==> !('A' <= id[k] <= 'F') {}
    if Lower(id) == id { forall k | 0 <= k < |id| ensures LowerHex(id[k]) == id[k] { assert Lower(id)[k] == id[k]; } }
  }

  /** Rows first: the restaurant, then the reservation and whose it is. */
  function CheckRows(c: Catalog, p: Payload): Option<Code> {
    if p.restaurant !in c.restaurants then Some(Missing404)
    else if p.reservation.None? then None
    else if p.reservation.value !in c.owners then Some(Missing404)
    else if c.owners[p.reservation.value] != p.user then Some(Forbidden403)
    else None
  }

  /** Then the products, those missing before those of another restaurant before those not
      available. */
  function CheckProducts(found: Menu, p: Payload): Option<Code> {
    if exists k :: 0 <= k < |p.items| && p.items[k].product !in found then Some(Missing404)
    else if exists id :: id in found && found[id].restaurant != p.restaurant then Some(BadRequest400)
    else if exists id :: id in found && found[id].available != Some(true) then Some(Conflict409)
    else None
  }

  /** The request passes every check. */
  predicate Passes(c: Catalog, menu: Menu, p: Payload) {
    Valid(p) && CheckRows(c, p) == None && CheckProducts(Found(menu, p.items), p) == None
  }

  predicate Sellable(menu: Menu, restaurant: int, product: string) {
    product in menu && menu[product].restaurant == restaurant && menu[product].available == Some(true)
  }

  lemma ProductsPass(menu: Menu, p: Payload)
    requires CheckProducts(Found(menu, p.items), p) == None
    ensures forall k :: 0 <= k < |p.items| ==>
      Sellable(menu, p.restaurant, p.items[k].product) && LowerCase(p.items[k].product)
  {
    hide Lower, Wanted;
    var found := Found(menu, p.items);
    forall k | 0 <= k < |p.items|
      ensures Sellable(menu, p.restaurant, p.items[k].product) && LowerCase(p.items[k].product)
    {
      assert p.items[k].product in found;
      WantedIsLower(p.items, p.items[k].product);
      LowerExactly(p.items[k].product);
    }
  }

  lemma SellablePass(menu: Menu, p: Payload)
    requires forall k :: 0 <= k < |p.items| ==>
      Sellable(menu, p.restaurant, p.items[k].product) && LowerCase(p.items[k].product)
    ensures CheckProducts(Found(menu, p.items), p) == None
  {
    forall k | 0 <= k < |p.items| ensures Lower(p.items[k].product) == p.items[k].product {
      LowerExactly(p.items[k].product);
    }
    hide Lower, LowerCase;
  }

  /** A request passes exactly when the restaurant exists, the reservation is the user's, and
      each product is sellable there and its id is written in lower case: an id that the
      schema also accepts in upper case is answered with 404. */
  lemma PassesExactly(c: Catalog, menu: Menu, p: Payload)
    ensures Passes(c, menu, p) <==>
      && Valid(p) && p.restaurant in c.restaurants
      && (p.reservation.Some? ==> p.reservation.value in c.owners && c.owners[p.reservation.value] == p.user)
      && forall k :: 0 <= k < |p.items| ==>
           Sellable(menu, p.restaurant, p.items[k].product) && LowerCase(p.items[k].product)
  {
    hide LowerCase, Found, CheckProducts, Sellable, Valid;
    if CheckProducts(Found(menu, p.items), p) == None {
      ProductsPass(menu, p);
    } else if forall k :: 0 <= k < |p.items| ==>
      Sellable(menu, p.restaurant, p.items[k].product) && LowerCase(p.items[k].product)
    {
      SellablePass(menu, p);
    }
  }

  function Lines(found: Menu, items: seq<Item>): (lines: seq<Line>)
    requires forall k :: 0 <= k < |items| ==> items[k].product in found
    ensures |lines| == |items|
  {
    seq(|items|, k requires 0 <= k < |items| =>
      var doc := found[items[k].product];
      Line(items[k].product, doc.name, Cents(doc.price), items[k].quantity))
  }

  predicate AllFound(found: Menu, items: seq<Item>) {
    forall k :: 0 <= k < |items| ==> items[k].product in found
  }

  function OrderOf(found: Menu, p: Payload): Order
    requires AllFound(found, p.items)
  {
    var lines := Lines(found, p.items);
    Order(p.user, p.restaurant, p.reservation, lines, Total(lines))
  }

  /** The line of one item: its product and quantity, the name of its document, and the nearest
      cent of that document's price. */
  predicate IsLineOf(line: Line, item: Item, doc: Product) {
    && line.product == item.product && line.quantity == item.quantity
    && line.name == doc.name && NearestCent(doc.price, line.unit)
  }

  /** Adding the lines up one by one ends at `total`. */
  ghost predicate AddsUp(lines: seq<Line>, total: int) {
    exists sums: seq<int> :: AreSums(lines, sums) && total == sums[|lines|]
  }

  predicate AreSums(lines: seq<Line>, sums: seq<int>) {
    && |sums| == |lines| + 1 && sums[0] == 0
    && forall k :: 0 <= k < |lines| ==> sums[k + 1] == sums[k] + lines[k].unit * lines[k].quantity
  }

  /** What the customer asked for, at the prices of this menu. */
  ghost predicate Receipt(menu: Menu, p: Payload, o: Order) {
    && o.user == p.user && o.restaurant == p.restaurant && o.reservation == p.reservation
    && |o.lines| == |p.items|
    && (forall k :: 0 <= k < |p.items| ==>
          p.items[k].product in menu && IsLineOf(o.lines[k], p.items[k], menu[p.items[k].product]))
    && AddsUp(o.lines, o.total)
  }

  lemma {:induction false} TotalAddsUp(lines: seq<Line>) returns (sums: seq<int>)
    ensures AreSums(lines, sums) && sums[|lines|] == Total(lines)
    decreases |lines|
  {
    if lines == [] {
      sums := [0];
    } else {
      var n := |lines| - 1;
      var before := TotalAddsUp(lines[..n]);
      sums := before + [Total(lines)];
      forall k | 0 <= k < |lines| ensures sums[k + 1] == sums[k] + lines[k].unit * lines[k].quantity {
        assert k < n ==> lines[..n][k] == lines[k];
      }
    }
  }

  lemma OrderIsRight(found: Menu, p: Payload)
    requires AllFound(found, p.items)
    ensures Receipt(found, p, OrderOf(found, p))
  {
    var o := OrderOf(found, p);
    var sums := TotalAddsUp(o.lines);
    hide Total;
    forall k | 0 <= k < |p.items| ensures IsLineOf(o.lines[k], p.items[k], found[p.items[k].product]) {
      CentsIsNearest(found[p.items[k].product].price, o.lines[k].unit);
    }
  }

  /** The loop that prices the items: one line an item, in their order, and their sum. */
  method Build(found: Menu, p: Payload) returns (order: Order)
    requires AllFound(found, p.items)
    ensures order == OrderOf(found, p) && Receipt(found, p, order)
  {
    OrderIsRight(found, p);
    hide Receipt;
    var total := 0;
    var lines := [];
    var i := 0;
    while i < |p.items|
      invariant 0 <= i <= |p.items|
      invariant lines == Lines(found, p.items)[..i] && total == Total(lines)
    {
      var doc := found[p.items[i].product];
      var unit := Cents(doc.price);
      var line := Line(p.items[i].product, doc.name, unit, p.items[i].quantity);
      assert (lines + [line])[..|lines|] == lines;
      total := total + unit * p.items[i].quantity;
      lines := lines + [line];
      i := i + 1;
    }
    assert lines == Lines(found, p.items);
    order := Order(p.user, p.restaurant, p.reservation, lines, total);
  }

  /** Unit prices of at most 39,999.99 always fit. */
  lemma OrderFits(found: Menu, p: Payload)
    requires Valid(p) && AllFound(found, p.items)
    requires forall id :: id in found ==> 0.0 <= found[id].price <= 39_999.99
    ensures Saves(OrderOf(found, p))
  {
    hide Cents;
    var lines := Lines(found, p.items);
    forall k | 0 <= k < |lines| ensures 0 <= lines[k].unit <= 3_999_999 && 0 < lines[k].quantity <= MAX_QUANTITY {
      CentsBetween(found[p.items[k].product].price);
    }
    TotalAtMost(lines, 3_999_999);
    assert |lines| * (3_999_999 * MAX_QUANTITY) <= 50 * (3_999_999 * 50);
  }

  lemma CentsBetween(price: real)
    requires 0.0 <= price <= 39_999.99
    ensures 0 <= Cents(price) <= 3_999_999
  {
  }

  /** One cent more does not: a full order of 50 lines of 50 is refused by the database. */
  lemma OneCentMore(found: Menu, p: Payload, id: string)
    requires |p.items| == 50 && AllFound(found, p.items)
    requires forall k :: 0 <= k < |p.items| ==> p.items[k] == Item(id, 50)
    requires id in found && found[id].price == 40_000.00
    ensures Valid(p) && OrderOf(found, p).total == 100_000_000_00 && !Saves(OrderOf(found, p))
  {
    SameLines(Lines(found, p.items), 40_000_00, 50);
  }

  lemma {:induction false} SameLines(lines: seq<Line>, unit: int, quantity: int)
    requires forall k :: 0 <= k < |lines| ==> lines[k].unit == unit && lines[k].quantity == quantity
    ensures Total(lines) == |lines| * (unit * quantity)
    decreases |lines|
  {
    if lines != [] {
      SameLines(lines[..|lines| - 1], unit, quantity);
      assert |lines| * (unit * quantity) == (|lines| - 1) * (unit * quantity) + unit * quantity;
    }
  }

  // ---- N requests, which may fail or die at any step ----

  datatype Stage =
    | Asked
    | Checked                   // the rows are fine
    | Priced(order: Order)      // the products are fine; the order is built
    | Saved(order: Order)       // committed in PostgreSQL
    | Replied(code: Code)
    | Died

  /** `found` is what the menu said; `id` is the order that was committed. */
  datatype Call = Call(payload: Payload, stage: Stage, found: Option<Menu>, id: Option<int>)

  /** order_placed */
  datatype Event = Event(user: int, order: int, restaurant: int, itemCount: int, total: int)

  /** `catalogs` and `menus` are history: all there have been, the current one last. */
  datatype World = World(
    catalog: Catalog, menu: Menu,
    orders: map<int, Order>, events: seq<Event>,
    calls: map<nat, Call>,
    catalogs: seq<Catalog>, menus: seq<Menu>)

  datatype Step =
    | Ask(i: nat, payload: Payload)
    | Check(i: nat)
    | ReadMenu(i: nat, works: bool)
    | Save(i: nat, id: int)
    | Log(i: nat, works: bool)
    | Die(i: nat)
    | ChangeMenu(menu: Menu)
    | ChangeRows(catalog: Catalog)

  predicate Enabled(w: World, step: Step) {
    match step
    case Ask(i, payload) => i !in w.calls
    case Check(i) => i in w.calls && w.calls[i].stage.Asked?
    case ReadMenu(i, _) => i in w.calls && w.calls[i].stage.Checked?
    case Save(i, id) => i in w.calls && w.calls[i].stage.Priced? && id !in w.orders
    case Log(i, _) => i in w.calls && w.calls[i].stage.Saved? && w.calls[i].id.Some?
    case Die(i) => i in w.calls && !w.calls[i].stage.Replied?
    case ChangeMenu(menu) => true
    case ChangeRows(catalog) => true
  }

  function Put(w: World, i: nat, stage: Stage): World
    requires i in w.calls
  {
    w.(calls := w.calls[i := w.calls[i].(stage := stage)])
  }

  function DoCheck(w: World, i: nat): World
    requires i in w.calls
  {
    var p := w.calls[i].payload;
    if !Valid(p) then Put(w, i, Replied(Unprocessable422))
    else
      match CheckRows(w.catalog, p)
      case Some(code) => Put(w, i, Replied(code))
      case None => Put(w, i, Checked)
  }

  function DoReadMenu(w: World, i: nat, works: bool): World
    requires i in w.calls
  {
    var p := w.calls[i].payload;
    var found := Found(w.menu, p.items);
    if !works then Put(w, i, Replied(Error500))
    else
      match CheckProducts(found, p)
      case Some(code) => Put(w, i, Replied(code))
      case None => w.(calls := w.calls[i := Call(p, Priced(OrderOf(found, p)), Some(found), None)])
  }

  function DoSave(w: World, i: nat, id: int): World
    requires Enabled(w, Save(i, id))
  {
    var order := w.calls[i].stage.order;
    if !Saves(order) then Put(w, i, Replied(Error500))
    else w.(orders := w.orders[id := order], calls := w.calls[i := w.calls[i].(stage := Saved(order), id := Some(id))])
  }

  /** An error here is only logged. */
  function DoLog(w: World, i: nat, works: bool): World
    requires Enabled(w, Log(i, works))
  {
    var id, order := w.calls[i].id.value, w.calls[i].stage.order;
    var event := Event(w.calls[i].payload.user, id, order.restaurant, |order.lines|, order.total);
    Put(w, i, Replied(Created201)).(events := if works then w.events + [event] else w.events)
  }

  function Apply(w: World, step: Step): World
    requires Enabled(w, step)
  {
    match step
    case Ask(i, payload) => w.(calls := w.calls[i := Call(payload, Asked, None, None)])
    case Check(i) => DoCheck(w, i)
    case ReadMenu(i, works) => DoReadMenu(w, i, works)
    case Save(i, id) => DoSave(w, i, id)
    case Log(i, works) => DoLog(w, i, works)
    case Die(i) => Put(w, i, Died)
    case ChangeMenu(menu) => w.(menu := menu, menus := w.menus + [menu])
    case ChangeRows(catalog) => w.(catalog := catalog, catalogs := w.catalogs + [catalog])
  }

  predicate Run(w: World, steps: seq<Step>)
    decreases |steps|
  {
    steps == [] || (Enabled(w, steps[0]) && Run(Apply(w, steps[0]), steps[1..]))
  }

  function After(w: World, steps: seq<Step>): World
    requires Run(w, steps)
    decreases |steps|
  {
    if steps == [] then w else After(Apply(w, steps[0]), steps[1..])
  }

  predicate Init(w: World) {
    w.calls == map[] && w.events == [] && w.menus == [w.menu] && w.catalogs == [w.catalog]
  }

  // ---- The invariant ----

  /** The products passed the checks, and this is the order they make. */
  predicate Makes(p: Payload, found: Option<Menu>, order: Order) {
    && Valid(p) && found.Some? && CheckProducts(found.value, p) == None
    && AllFound(found.value, p.items) && order == OrderOf(found.value, p)
  }

  /** What a call has left behind is its whole order or nothing. */
  predicate CallFine(w: World, start: map<int, Order>, i: nat)
    requires i in w.calls
  {
    var c := w.calls[i];
    && (c.stage.Checked? ==> Valid(c.payload))
    && (c.stage.Priced? ==> Makes(c.payload, c.found, c.stage.order))
    && (c.id.Some? ==>
          && c.id.value !in start && c.id.value in w.orders
          && Makes(c.payload, c.found, w.orders[c.id.value]) && Saves(w.orders[c.id.value]))
    && (c.stage.Asked? || c.stage.Checked? || c.stage.Priced? ==> c.id.None?)
    && (c.stage.Saved? ==> c.id.Some? && c.id.value in w.orders && w.orders[c.id.value] == c.stage.order)
    && (c.stage.Replied? ==> (c.stage.code == Created201 <==> c.id.Some?))
  }

  predicate Owned(w: World, start: map<int, Order>) {
    && (forall id :: id in start ==> id in w.orders && w.orders[id] == start[id])
    && (forall id :: id in w.orders && id !in start ==> exists i :: i in w.calls && w.calls[i].id == Some(id))
    && (forall i, j :: i in w.calls && j in w.calls && i != j && w.calls[i].id.Some? ==> w.calls[j].id != w.calls[i].id)
  }

  /** An event says of its order what the order says of itself. */
  predicate EventFine(w: World, e: Event) {
    && e.order in w.orders && e.user == w.orders[e.order].user && e.restaurant == w.orders[e.order].restaurant
    && e.itemCount == |w.orders[e.order].lines| && e.total == w.orders[e.order].total
  }

  predicate EventsFine(w: World) {
    && (forall k :: 0 <= k < |w.events| ==> EventFine(w, w.events[k]))
    && (forall k, l :: 0 <= k < l < |w.events| ==> w.events[k].order != w.events[l].order)
    && (forall k, i :: 0 <= k < |w.events| && i in w.calls && w.calls[i].stage.Saved? ==>
          w.calls[i].id != Some(w.events[k].order))
  }

  predicate Inv(w: World, start: map<int, Order>) {
    (forall i :: i in w.calls ==> CallFine(w, start, i)) && Owned(w, start) && EventsFine(w)
  }

  lemma FineElsewhere(w: World, t: World, start: map<int, Order>, i: nat)
    requires i in w.calls && i in t.calls && t.calls[i] == w.calls[i] && CallFine(w, start, i)
    requires forall id :: id in w.orders ==> id in t.orders && t.orders[id] == w.orders[id]
    ensures CallFine(t, start, i)
  {
    hide Makes, Saves, Valid;
    var c := w.calls[i];
    if c.id.Some? {
      var id := c.id.value;
      assert id in w.orders;
      assert id in t.orders && t.orders[id] == w.orders[id];
    }
  }

  lemma OthersStay(w: World, step: Step, i: nat)
    requires Enabled(w, step) && i in w.calls
    ensures var t := Apply(w, step); forall id :: id in w.orders ==> id in t.orders && t.orders[id] == w.orders[id]
    ensures step.Ask? || step.ChangeMenu? || step.ChangeRows? || step.i != i ==>
      i in Apply(w, step).calls && Apply(w, step).calls[i] == w.calls[i]
  {
    hide CheckRows, CheckProducts, Found, Saves, Valid, OrderOf, AllFound;
  }

  lemma CheckIsFine(w: World, start: map<int, Order>, i: nat)
    requires i in w.calls && w.calls[i].stage.Asked? && CallFine(w, start, i)
    ensures CallFine(DoCheck(w, i), start, i)
  {
  }

  lemma ReadIsFine(w: World, start: map<int, Order>, i: nat, works: bool)
    requires i in w.calls && w.calls[i].stage.Checked? && CallFine(w, start, i)
    ensures CallFine(DoReadMenu(w, i, works), start, i)
  {
  }

  lemma SaveIsFine(w: World, start: map<int, Order>, i: nat, id: int)
    requires Enabled(w, Save(i, id)) && CallFine(w, start, i) && id !in start
    ensures CallFine(DoSave(w, i, id), start, i)
  {
  }

  lemma CallStaysFine(w: World, start: map<int, Order>, step: Step, i: nat)
    requires Inv(w, start) && Enabled(w, step) && i in Apply(w, step).calls
    ensures CallFine(Apply(w, step), start, i)
  {
    hide Apply, EventsFine, CallFine, Makes, Saves, Valid;
    if i in w.calls { OthersStay(w, step, i); }
    if i in w.calls && Apply(w, step).calls[i] == w.calls[i] {
      FineElsewhere(w, Apply(w, step), start, i);
    } else {
      MoverIsFine(w, start, step, i);
    }
  }

  lemma MoverIsFine(w: World, start: map<int, Order>, step: Step, i: nat)
    requires Inv(w, start) && Enabled(w, step) && i in Apply(w, step).calls
    requires i in w.calls ==> Apply(w, step).calls[i] != w.calls[i]
    ensures CallFine(Apply(w, step), start, i)
  {
    hide EventsFine, DoCheck, DoReadMenu, DoSave, Makes, Saves, Valid;
    if i in w.calls { assert CallFine(w, start, i); }
    match step {
      case Ask(_, _) =>
      case Check(k) => CheckStaysWithin(w, k, i); CheckIsFine(w, start, k);
      case ReadMenu(k, works) => ReadStaysWithin(w, k, works, i); ReadIsFine(w, start, k, works);
      case Save(k, id) => SaveStaysWithin(w, k, id, i); SaveIsFine(w, start, k, id);
      case Log(k, _) =>
      case Die(k) =>
      case ChangeMenu(_) =>
      case ChangeRows(_) =>
    }
  }

  lemma CheckStaysWithin(w: World, k: nat, i: nat)
    requires k in w.calls && i in DoCheck(w, k).calls && (i in w.calls ==> DoCheck(w, k).calls[i] != w.calls[i])
    ensures i == k
  {
  }

  lemma ReadStaysWithin(w: World, k: nat, works: bool, i: nat)
    requires k in w.calls && i in DoReadMenu(w, k, works).calls
    requires i in w.calls ==> DoReadMenu(w, k, works).calls[i] != w.calls[i]
    ensures i == k
  {
  }

  lemma SaveStaysWithin(w: World, k: nat, id: int, i: nat)
    requires Enabled(w, Save(k, id)) && i in DoSave(w, k, id).calls
    requires i in w.calls ==> DoSave(w, k, id).calls[i] != w.calls[i]
    ensures i == k
  {
  }

  predicate SameIds(w: World, t: World) {
    && t.orders == w.orders
    && (forall i :: i in w.calls && w.calls[i].id.Some? ==> i in t.calls && t.calls[i].id == w.calls[i].id)
    && (forall i :: i in t.calls && t.calls[i].id.Some? ==> i in w.calls && t.calls[i].id == w.calls[i].id)
  }

  /** Only saving an order changes what the calls have left behind. */
  lemma OnlySavesAdd(w: World, start: map<int, Order>, step: Step)
    requires Enabled(w, step) && forall i :: i in w.calls ==> CallFine(w, start, i)
    ensures SameIds(w, Apply(w, step)) || (step.Save? && Apply(w, step).orders != w.orders)
  {
    hide CheckRows, CheckProducts, Found, Saves, Valid, Makes;
    if !step.Ask? && !step.ChangeMenu? && !step.ChangeRows? { assert CallFine(w, start, step.i); }
  }

  lemma OwnedWithout(w: World, t: World, start: map<int, Order>)
    requires Owned(w, start) && SameIds(w, t)
    ensures Owned(t, start)
  {
  }

  lemma OwnedWith(w: World, t: World, start: map<int, Order>, i: nat, id: int)
    requires Owned(w, start) && i in w.calls && w.calls[i].id.None? && id !in w.orders
    requires id in t.orders && t.orders == w.orders[id := t.orders[id]]
    requires i in t.calls && t.calls == w.calls[i := t.calls[i]] && t.calls[i].id == Some(id)
    requires forall j :: j in w.calls && w.calls[j].id.Some? ==> w.calls[j].id.value in w.orders
    ensures Owned(t, start)
  {
    forall k | k in t.orders && k !in start ensures exists j :: j in t.calls && t.calls[j].id == Some(k) {
      if k == id {
        assert t.calls[i].id == Some(k);
      } else {
        var j :| j in w.calls && w.calls[j].id == Some(k);
        assert t.calls[j].id == Some(k);
      }
    }
  }

  lemma OwnedStays(w: World, start: map<int, Order>, step: Step)
    requires Inv(w, start) && Enabled(w, step)
    ensures Owned(Apply(w, step), start)
  {
    hide CheckRows, CheckProducts, Found, Saves, Valid, Makes, OrderOf, Owned, EventsFine;
    var t := Apply(w, step);
    OnlySavesAdd(w, start, step);
    if SameIds(w, t) {
      OwnedWithout(w, t, start);
    } else {
      assert CallFine(w, start, step.i);
      forall j | j in w.calls && w.calls[j].id.Some? ensures w.calls[j].id.value in w.orders {
        assert CallFine(w, start, j);
      }
      OwnedWith(w, t, start, step.i, step.id);
    }
  }

  lemma EventsStayFine(w: World, start: map<int, Order>, step: Step)
    requires Inv(w, start) && Enabled(w, step)
    ensures EventsFine(Apply(w, step))
  {
    hide CheckRows, CheckProducts, Found, Saves, Valid, AllFound, Owned, Total, Lines;
    var t := Apply(w, step);
    if step.Log? {
      assert CallFine(w, start, step.i);
      OnlyOneSaved(w, start, step.i);
    }
  }

  lemma OnlyOneSaved(w: World, start: map<int, Order>, i: nat)
    requires Inv(w, start) && i in w.calls && w.calls[i].id.Some?
    ensures forall j :: j in w.calls && j != i ==> w.calls[j].id != w.calls[i].id
  {
  }

  lemma StepKeeps(w: World, start: map<int, Order>, step: Step)
    requires Inv(w, start) && Enabled(w, step)
    ensures Inv(Apply(w, step), start)
  {
    hide CallFine, Owned, EventsFine;
    OwnedStays(w, start, step);
    EventsStayFine(w, start, step);
    forall i | i in Apply(w, step).calls ensures CallFine(Apply(w, step), start, i) {
      CallStaysFine(w, start, step, i);
    }
  }

  lemma {:induction false} RunKeeps(w: World, start: map<int, Order>, steps: seq<Step>)
    requires Inv(w, start) && Run(w, steps)
    ensures Inv(After(w, steps), start)
    decreases |steps|
  {
    hide Inv, Enabled, Apply;
    if steps != [] {
      StepKeeps(w, start, steps[0]);
      RunKeeps(Apply(w, steps[0]), start, steps[1..]);
    }
  }

  /** However many requests run, fail or die, and however the menu changes under them: a request
      leaves its whole order, priced from one reading of the menu, or nothing; a 201 is exactly
      a reply that leaves an order; every order belongs to one request; and every event is
      about an order that is there, says its number of lines and its total, and is the only
      one about it. */
  lemma AllOrNothing(w: World, steps: seq<Step>)
    requires Init(w) && Run(w, steps)
    ensures var t := After(w, steps);
      && (forall i :: i in t.calls ==> CallFine(t, w.orders, i))
      && Owned(t, w.orders) && EventsFine(t)
  {
    hide Run, After, CallFine, EventFine;
    RunKeeps(w, w.orders, steps);
  }
}
