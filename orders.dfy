/**
 * The order controller: placing an order from a cart (an all-or-nothing
 * availability check, then a snapshot of names and prices), looking an
 * order up, and the status machine with its two terminal states.
 */
module Orders {
  import opened Js
  import opened Api
  import opened FoodModel
  import opened OrderModel
  import opened Carts
  import Catalog

  // ---------------------------------------------------------------- placing

  /** A cart line whose food exists and is available (`item.food?.isAvailable`). */
  predicate InStock(l: CartLine, foods: map<FoodId, Food>) {
    l.food in foods && foods[l.food].isAvailable
  }

  /** The cart lines that are not in stock, in cart order (the `filter`). */
  function UnavailableLines(lines: seq<CartLine>, foods: map<FoodId, Food>): (r: seq<CartLine>)
    ensures |r| <= |lines|
    ensures forall l :: l in r <==> l in lines && !InStock(l, foods)
    ensures r == [] <==> forall i :: 0 <= i < |lines| ==> InStock(lines[i], foods)
  {
    if lines == [] then []
    else
      var rest := UnavailableLines(lines[1..], foods);
      assert forall l :: l in lines <==> l == lines[0] || l in lines[1..];
      if InStock(lines[0], foods) then rest else [lines[0]] + rest
  }

  /** The filter of one line: that line when it is not in stock, else nothing. */
  lemma UnavailableSingle(l: CartLine, foods: map<FoodId, Food>)
    ensures UnavailableLines([l], foods) == if InStock(l, foods) then [] else [l]
  {
  }

  /**
   * The filter distributes over concatenation, so together with
   * `UnavailableSingle` it keeps the cart's order and reports each
   * unavailable line once, exactly where it stands in the cart.
   */
  lemma {:induction false} UnavailableAppend(a: seq<CartLine>, b: seq<CartLine>, foods: map<FoodId, Food>)
    ensures UnavailableLines(a + b, foods) == UnavailableLines(a, foods) + UnavailableLines(b, foods)
  {
    if a != [] {
      assert (a + b)[1..] == a[1..] + b;
      UnavailableAppend(a[1..], b, foods);
    } else {
      assert a + b == b;
    }
  }

  /**
   * An entry of the conflict report: the food's id and name, both absent
   * when the line's food no longer exists.
   */
  datatype Reported = Reported(foodId: Option<FoodId>, name: Option<string>)

  /** The conflict report for some cart lines, one entry per line (the `map`). */
  function Report(lines: seq<CartLine>, foods: map<FoodId, Food>): (r: seq<Reported>)
    ensures |r| == |lines|
    ensures forall i :: 0 <= i < |lines| ==>
      r[i] == if lines[i].food in foods then Reported(Some(lines[i].food), Some(foods[lines[i].food].name))
              else Reported(None, None)
  {
    if lines == [] then []
    else
      var l := lines[0];
      [if l.food in foods then Reported(Some(l.food), Some(foods[l.food].name)) else Reported(None, None)]
        + Report(lines[1..], foods)
  }

  /**
   * The order lines copied from cart lines whose foods all exist: one per
   * cart line, in cart order, with the food's current name and price.
   */
  function Snapshot(lines: seq<CartLine>, foods: map<FoodId, Food>): (r: seq<OrderLine>)
    requires forall i :: 0 <= i < |lines| ==> lines[i].food in foods
    ensures |r| == |lines|
    ensures forall i :: 0 <= i < |lines| ==>
      var f := foods[lines[i].food];
      && r[i].food == lines[i].food && r[i].name == f.name && r[i].price == f.price
      && r[i].quantity == lines[i].quantity && r[i].subtotal == f.price * lines[i].quantity
  {
    if lines == [] then []
    else
      var l := lines[0];
      var f := foods[l.food];
      [OrderLine(l.food, f.name, f.price, l.quantity, f.price * l.quantity)] + Snapshot(lines[1..], foods)
  }

  /** `totalPrice`: the subtotals summed from the first line on (the `reduce`). */
  function Total(items: seq<OrderLine>): nat {
    if items == [] then 0 else Total(items[..|items| - 1]) + items[|items| - 1].subtotal
  }

  /** The total of two runs of lines is the sum of their totals. */
  lemma {:induction false} TotalAppend(a: seq<OrderLine>, b: seq<OrderLine>)
    ensures Total(a + b) == Total(a) + Total(b)
  {
    if b != [] {
      var n := |a + b|;
      assert (a + b)[..n - 1] == a + b[..|b| - 1];
      assert (a + b)[n - 1] == b[|b| - 1];
      TotalAppend(a, b[..|b| - 1]);
    } else {
      assert a + b == a;
    }
  }

  /** The value of a cart at current prices, summed line by line from the front. */
  function CartValue(lines: seq<CartLine>, foods: map<FoodId, Food>): nat
    requires forall i :: 0 <= i < |lines| ==> lines[i].food in foods
  {
    if lines == [] then 0 else foods[lines[0].food].price * lines[0].quantity + CartValue(lines[1..], foods)
  }

  /** The order total is the cart's value at the prices read when ordering. */
  lemma {:induction false} TotalOfSnapshot(lines: seq<CartLine>, foods: map<FoodId, Food>)
    requires forall i :: 0 <= i < |lines| ==> lines[i].food in foods
    ensures Total(Snapshot(lines, foods)) == CartValue(lines, foods)
  {
    if lines != [] {
      var s := Snapshot(lines, foods);
      assert s == [s[0]] + Snapshot(lines[1..], foods);
      TotalAppend([s[0]], Snapshot(lines[1..], foods));
      assert Total([s[0]]) == s[0].subtotal by {
        assert [s[0]][..0] == [];
      }
      TotalOfSnapshot(lines[1..], foods);
    }
  }

  /** Every line contributes its subtotal: the total bounds each one. */
  lemma {:induction false} SubtotalWithinTotal(items: seq<OrderLine>, i: nat)
    requires i < |items|
    ensures items[i].subtotal <= Total(items)
  {
    if i < |items| - 1 {
      SubtotalWithinTotal(items[..|items| - 1], i);
    }
  }

  /**
   * What the controller keeps true of every order it stores, beside the
   * schema: subtotals are price times quantity, the total is their sum,
   * and `cancelledBy` is recorded exactly on cancelled orders.
   */
  predicate Consistent(o: Order) {
    && ValidOrder(o)
    && (forall i :: 0 <= i < |o.items| ==> o.items[i].subtotal == o.items[i].price * o.items[i].quantity)
    && o.totalPrice == Total(o.items)
    && (o.cancelledBy.Some? <==> o.status == Cancelled)
  }

  /** The order placed from the lines of a cart whose foods are all in stock. */
  function Placed(user: UserId, lines: seq<CartLine>, foods: map<FoodId, Food>): Order
    requires forall i :: 0 <= i < |lines| ==> InStock(lines[i], foods)
  {
    assert forall i :: 0 <= i < |lines| ==> lines[i].food in foods by {
      forall i | 0 <= i < |lines| ensures lines[i].food in foods {
        assert InStock(lines[i], foods);
      }
    }
    var items := Snapshot(lines, foods);
    Order(user, items, Total(items), DefaultStatus, None)
  }

  /** An order placed from a valid cart over a valid catalog is consistent and pending. */
  lemma PlacedConsistent(user: UserId, lines: seq<CartLine>, foods: map<FoodId, Food>)
    requires ValidItems(lines)
    requires forall i :: 0 <= i < |lines| ==> InStock(lines[i], foods)
    requires forall id :: id in foods ==> ValidFood(foods[id])
    ensures Consistent(Placed(user, lines, foods))
    ensures Placed(user, lines, foods).status == Pending
    ensures |Placed(user, lines, foods).items| == |lines|
  {
  }

  // ----------------------------------------------------------------- status

  /** TERMINAL_STATUSES. */
  predicate IsTerminal(s: Status) {
    s == Completed || s == Cancelled
  }

  /** First status of `statuses` whose name is `name` (`includes`). */
  function Lookup(statuses: seq<Status>, name: string): (r: Option<Status>)
    ensures r.Some? ==> r.value in statuses && StatusName(r.value) == name
    ensures r.None? ==> forall s :: s in statuses ==> StatusName(s) != name
  {
    if statuses == [] then None
    else if StatusName(statuses[0]) == name then Some(statuses[0])
    else Lookup(statuses[1..], name)
  }

  /**
   * The `status` of a status update: a string among ORDER_STATUSES, or
   * `None` for anything else, a falsy value included.
   */
  function ParseStatus(v: Json): (r: Option<Status>)
    ensures r.Some? ==> v == Str(StatusName(r.value))
    ensures forall s :: v == Str(StatusName(s)) ==> r == Some(s)
  {
    StatusesExactlyOnce();
    if v.Str? then Lookup(OrderStatuses, v.s) else None
  }

  /** Who a cancellation records: admin exactly when the actor is the string "admin". */
  function CancelledBy(actor: Json): Canceller {
    if actor == Str("admin") then Admin else Customer
  }

  /**
   * One status update of a stored order. A terminal order refuses it
   * (`None`); otherwise it takes the target status, and a cancellation
   * also records who cancelled.
   */
  function Advance(o: Order, target: Status, actor: Json): Option<Order> {
    if IsTerminal(o.status) then None
    else if target == Cancelled then Some(o.(cancelledBy := Some(CancelledBy(actor)), status := Cancelled))
    else Some(o.(status := target))
  }

  /**
   * The status machine: every update of a terminal order is refused, a
   * same-status one included; from any other status every target is
   * reached, with `cancelledBy` set on a cancellation and kept otherwise,
   * and nothing but those two fields ever changes.
   */
  lemma AdvanceRule(o: Order, target: Status, actor: Json)
    ensures IsTerminal(o.status) <==> Advance(o, target, actor).None?
    ensures !IsTerminal(o.status) ==>
      var p := Advance(o, target, actor).value;
      && p.status == target
      && p.cancelledBy == (if target != Cancelled then o.cancelledBy
                           else if actor == Str("admin") then Some(Admin) else Some(Customer))
      && p.user == o.user && p.items == o.items && p.totalPrice == o.totalPrice
  {
  }

  /** A status update keeps a stored order consistent. */
  lemma AdvanceConsistent(o: Order, target: Status, actor: Json)
    requires Consistent(o)
    requires Advance(o, target, actor).Some?
    ensures Consistent(Advance(o, target, actor).value)
  {
  }

  /**
   * A series of status update requests against one order, each refused
   * one leaving it as it was.
   */
  function Replay(o: Order, requests: seq<(Status, Json)>): Order
    decreases |requests|
  {
    if requests == [] then o
    else
      var next := Advance(o, requests[0].0, requests[0].1);
      Replay(if next.Some? then next.value else o, requests[1..])
  }

  /** Once an order is completed or cancelled, no series of updates changes it. */
  lemma {:induction false} TerminalIsFinal(o: Order, requests: seq<(Status, Json)>)
    requires IsTerminal(o.status)
    ensures Replay(o, requests) == o
  {
    if requests != [] {
      TerminalIsFinal(o, requests[1..]);
    }
  }

  /** No series of updates touches an order's user, lines or total. */
  lemma {:induction false} ReplayKeepsSnapshot(o: Order, requests: seq<(Status, Json)>)
    decreases |requests|
    ensures Replay(o, requests).user == o.user
    ensures Replay(o, requests).items == o.items
    ensures Replay(o, requests).totalPrice == o.totalPrice
  {
    if requests != [] {
      var next := Advance(o, requests[0].0, requests[0].1);
      ReplayKeepsSnapshot(if next.Some? then next.value else o, requests[1..]);
    }
  }

  /** A series of updates keeps a consistent order consistent. */
  lemma {:induction false} ReplayConsistent(o: Order, requests: seq<(Status, Json)>)
    requires Consistent(o)
    decreases |requests|
    ensures Consistent(Replay(o, requests))
  {
    if requests != [] {
      var next := Advance(o, requests[0].0, requests[0].1);
      if next.Some? {
        AdvanceConsistent(o, requests[0].0, requests[0].1);
      }
      ReplayConsistent(if next.Some? then next.value else o, requests[1..]);
    }
  }

  // ------------------------------------------------------------------ store

  /** The Order collection; `nextId` stands for the ids MongoDB has not handed out yet. */
  class OrderStore {
    var orders: map<OrderId, Order>
    var nextId: OrderId

    ghost predicate Valid()
      reads this
    {
      forall id :: id in orders ==> id < nextId && Consistent(orders[id])
    }

    constructor ()
      ensures Valid() && orders == map[] && nextId == 0
    {
      orders := map[];
      nextId := 0;
    }

    /**
     * createOrderController. A missing or malformed user id, or a cart that
     * is missing or empty, is a BadRequest; a cart with any line out of
     * stock is a Conflict reporting exactly those lines. In both cases
     * nothing changes. Otherwise a pending order with the snapshot of the
     * cart is stored under a fresh id and that cart, alone, is emptied.
     */
    method Place(catalog: Catalog.FoodStore, carts: CartStore, user: IdArg)
      returns (r: Code, created: Option<OrderId>, unavailable: seq<Reported>)
      requires Valid() && carts.Valid() && catalog.Valid()
      modifies this, carts
      ensures Valid() && carts.Valid()
      ensures r == BadRequest <==> !user.Ref? || ItemsOf(old(carts.carts), user.id) == []
      ensures r == Conflict <==> user.Ref? && ItemsOf(old(carts.carts), user.id) != []
                                 && UnavailableLines(old(carts.carts)[user.id], catalog.foods) != []
      ensures r == Created <==> user.Ref? && ItemsOf(old(carts.carts), user.id) != []
                                && UnavailableLines(old(carts.carts)[user.id], catalog.foods) == []
      ensures r == Conflict ==> unavailable == Report(UnavailableLines(old(carts.carts)[user.id], catalog.foods), catalog.foods)
      ensures r != Conflict ==> unavailable == []
      ensures r != Created ==>
        created == None && orders == old(orders) && nextId == old(nextId) && carts.carts == old(carts.carts)
      ensures r == Created ==>
        && created == Some(old(nextId)) && nextId == old(nextId) + 1
        && (forall i :: 0 <= i < |old(carts.carts)[user.id]| ==> InStock(old(carts.carts)[user.id][i], catalog.foods))
        && orders == old(orders)[old(nextId) := Placed(user.id, old(carts.carts)[user.id], catalog.foods)]
        && carts.carts == old(carts.carts)[user.id := []]
    {
      created, unavailable := None, [];
      if !user.Ref? {
        return BadRequest, created, unavailable;
      }
      if user.id !in carts.carts || carts.carts[user.id] == [] {
        return BadRequest, created, unavailable;
      }
      var lines := carts.carts[user.id];
      var missing := UnavailableLines(lines, catalog.foods);
      if missing != [] {
        unavailable := Report(missing, catalog.foods);
        return Conflict, created, unavailable;
      }
      var items := Snapshot(lines, catalog.foods);
      var totalPrice := Total(items);
      PlacedConsistent(user.id, lines, catalog.foods);
      orders := orders[nextId := Order(user.id, items, totalPrice, Pending, None)];
      created := Some(nextId);
      nextId := nextId + 1;
      carts.carts := carts.carts[user.id := []];
      r := Created;
    }

    /** getOrderByIdController. */
    method Get(id: IdArg) returns (r: Code, found: Option<Order>)
      ensures r == BadRequest <==> !id.Ref?
      ensures r == NotFound <==> id.Ref? && id.id !in orders
      ensures r == Ok <==> id.Ref? && id.id in orders
      ensures r == Ok ==> found == Some(orders[id.id])
      ensures r != Ok ==> found == None
    {
      if !id.Ref? {
        return BadRequest, None;
      }
      if id.id !in orders {
        return NotFound, None;
      }
      r, found := Ok, Some(orders[id.id]);
    }

    /**
     * updateOrderStatusController. A malformed id or a status outside
     * ORDER_STATUSES is a BadRequest before any lookup, an unknown id
     * NotFound, and an order in a terminal status a Conflict; then nothing
     * changes. Otherwise the order takes one step of `Advance`.
     */
    method UpdateStatus(id: IdArg, status: Json, actor: Json) returns (r: Code)
      requires Valid()
      modifies this
      ensures Valid() && nextId == old(nextId)
      ensures r == BadRequest <==> !id.Ref? || ParseStatus(status).None?
      ensures r == NotFound <==> id.Ref? && ParseStatus(status).Some? && id.id !in old(orders)
      ensures r == Conflict <==> id.Ref? && ParseStatus(status).Some? && id.id in old(orders)
                                 && IsTerminal(old(orders)[id.id].status)
      ensures r == Ok <==> id.Ref? && ParseStatus(status).Some? && id.id in old(orders)
                           && !IsTerminal(old(orders)[id.id].status)
      ensures r == Ok ==>
        orders == old(orders)[id.id := Advance(old(orders)[id.id], ParseStatus(status).value, actor).value]
      ensures r != Ok ==> orders == old(orders)
    {
      if !id.Ref? {
        return BadRequest;
      }
      var target := ParseStatus(status);
      if target.None? {
        return BadRequest;
      }
      if id.id !in orders {
        return NotFound;
      }
      var order := orders[id.id];
      if IsTerminal(order.status) {
        return Conflict;
      }
      AdvanceConsistent(order, target.value, actor);
      if target.value == Cancelled {
        var canceller := CancelledBy(actor);
        order := order.(cancelledBy := Some(canceller));
        order := order.(status := Cancelled);
      } else {
        order := order.(status := target.value);
      }
      orders := orders[id.id := order];
      r := Ok;
    }
  }
}
