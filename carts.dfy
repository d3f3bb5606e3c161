/**
 * The cart controller: one cart per user, an ordered list of
 * (food, quantity) lines in which each food appears at most once.
 */
module Carts {
  import opened Js
  import opened Api
  import opened FoodModel
  import Catalog

  /** A line of a cart: a reference to a food and how many of it. */
  datatype CartLine = CartLine(food: FoodId, quantity: nat)

  /** No food has two lines. */
  predicate UniqueFoods(items: seq<CartLine>) {
    forall i, j :: 0 <= i < j < |items| ==> items[i].food != items[j].food
  }

  /** What every stored cart satisfies: unique foods, quantities of at least 1. */
  predicate ValidItems(items: seq<CartLine>) {
    UniqueFoods(items) && forall i :: 0 <= i < |items| ==> items[i].quantity >= 1
  }

  function FoodSet(items: seq<CartLine>): set<FoodId> {
    set i | 0 <= i < |items| :: items[i].food
  }

  /**
   * The cart merge, as a reference definition: the first line for `food`
   * gets `qty` more; a cart without one gets a new last line.
   */
  function AddLine(items: seq<CartLine>, food: FoodId, qty: nat): seq<CartLine> {
    if items == [] then [CartLine(food, qty)]
    else if items[0].food == food then [CartLine(food, items[0].quantity + qty)] + items[1..]
    else [items[0]] + AddLine(items[1..], food, qty)
  }

  /** The lines of `user`'s cart; a user without a cart has none. */
  function ItemsOf(carts: map<UserId, seq<CartLine>>, user: UserId): seq<CartLine> {
    if user in carts then carts[user] else []
  }

  /**
   * The `quantity` of an add-to-cart request: 1 when absent, otherwise an
   * integer of at least 1; anything else is refused (`None`).
   */
  function QuantityArg(v: Json): (q: Option<nat>)
    ensures v.Undefined? ==> q == Some(1)
    ensures q.Some? ==> q.value >= 1
    ensures !v.Undefined? ==> (q.Some? <==> v.Num? && v.n >= 1)
    ensures v.Num? && v.n >= 1 ==> q == Some(v.n)
  {
    match v
    case Undefined => Some(1)
    case Num(n) => if n >= 1 then Some(n) else None
    case _ => None
  }

  /** `cart.items.find(...)`: the index of the first line for `food`, or -1. */
  method FindLine(items: seq<CartLine>, food: FoodId) returns (i: int)
    ensures -1 <= i < |items|
    ensures i == -1 <==> food !in FoodSet(items)
    ensures i >= 0 ==> items[i].food == food && forall k :: 0 <= k < i ==> items[k].food != food
  {
    i := 0;
    while i < |items|
      invariant 0 <= i <= |items|
      invariant forall k :: 0 <= k < i ==> items[k].food != food
    {
      if items[i].food == food {
        return;
      }
      i := i + 1;
    }
    i := -1;
  }

  /** Merging into the first line for `food` updates that line in place. */
  lemma {:induction false} AddLineAt(items: seq<CartLine>, food: FoodId, qty: nat, i: nat)
    requires i < |items| && items[i].food == food
    requires forall k :: 0 <= k < i ==> items[k].food != food
    ensures AddLine(items, food, qty) == items[i := CartLine(food, items[i].quantity + qty)]
  {
    if i > 0 {
      AddLineAt(items[1..], food, qty, i - 1);
      assert items[1..][i - 1 := CartLine(food, items[i].quantity + qty)]
          == items[i := CartLine(food, items[i].quantity + qty)][1..];
    }
  }

  /** Adding a food the cart does not hold appends one line at the end. */
  lemma {:induction false} AddLineAppends(items: seq<CartLine>, food: FoodId, qty: nat)
    requires food !in FoodSet(items)
    ensures AddLine(items, food, qty) == items + [CartLine(food, qty)]
  {
    if items != [] {
      assert FoodSet(items[1..]) <= FoodSet(items) by {
        forall x | x in FoodSet(items[1..]) ensures x in FoodSet(items) {
          var k :| 0 <= k < |items[1..]| && items[1..][k].food == x;
          assert items[k + 1].food == x;
        }
      }
      assert items[0].food in FoodSet(items);
      AddLineAppends(items[1..], food, qty);
      assert items == [items[0]] + items[1..];
    }
  }

  /** The merged cart holds the foods it held before, and `food`. */
  lemma {:induction false} AddLineFoods(items: seq<CartLine>, food: FoodId, qty: nat)
    ensures FoodSet(AddLine(items, food, qty)) == FoodSet(items) + {food}
  {
    var r := AddLine(items, food, qty);
    if items != [] {
      AddLineFoods(items[1..], food, qty);
      forall x ensures x in FoodSet(r) <==> x in FoodSet(items) || x == food {
        if x in FoodSet(items) {
          var k :| 0 <= k < |items| && items[k].food == x;
          if k > 0 { assert items[1..][k - 1].food == x; }
        }
        if x in FoodSet(r) {
          var k :| 0 <= k < |r| && r[k].food == x;
          if k > 0 { assert r[k] == r[1..][k - 1]; }
        }
        if x in FoodSet(items[1..]) {
          var k :| 0 <= k < |items[1..]| && items[1..][k].food == x;
          assert items[k + 1].food == x;
        }
        if x in FoodSet(r[1..]) {
          var k :| 0 <= k < |r[1..]| && r[1..][k].food == x;
          assert r[k + 1].food == x;
        }
        assert r[0].food in FoodSet(r);
      }
    }
  }

  /** A cart with a first line has unique foods when the rest does and lacks that food. */
  lemma UniqueCons(x: CartLine, rest: seq<CartLine>)
    ensures UniqueFoods([x] + rest) <==> UniqueFoods(rest) && x.food !in FoodSet(rest)
  {
    var s := [x] + rest;
    if UniqueFoods(s) {
      assert UniqueFoods(rest) by {
        forall i, j | 0 <= i < j < |rest| ensures rest[i].food != rest[j].food {
          assert s[i + 1] == rest[i] && s[j + 1] == rest[j];
        }
      }
      forall k | 0 <= k < |rest| ensures rest[k].food != x.food {
        assert s[0] == x && s[k + 1] == rest[k];
      }
    }
    if UniqueFoods(rest) && x.food !in FoodSet(rest) {
      forall i, j | 0 <= i < j < |s| ensures s[i].food != s[j].food {
        assert s[j] == rest[j - 1];
        if i > 0 { assert s[i] == rest[i - 1]; }
        else { assert rest[j - 1].food in FoodSet(rest); }
      }
    }
  }

  /** The merge keeps every stored cart valid: still one line per food. */
  lemma {:induction false} AddLineValid(items: seq<CartLine>, food: FoodId, qty: nat)
    requires ValidItems(items) && qty >= 1
    ensures ValidItems(AddLine(items, food, qty))
  {
    var r := AddLine(items, food, qty);
    if items == [] {
      assert r == [CartLine(food, qty)];
    } else {
      var rest := items[1..];
      assert items == [items[0]] + rest;
      UniqueCons(items[0], rest);
      if items[0].food == food {
        UniqueCons(CartLine(food, items[0].quantity + qty), rest);
      } else {
        assert ValidItems(rest);
        AddLineValid(rest, food, qty);
        AddLineFoods(rest, food, qty);
        UniqueCons(items[0], AddLine(rest, food, qty));
      }
      assert forall i :: 0 < i < |r| ==> r[i] == r[1..][i - 1];
    }
  }

  /** The merge adds one line exactly when the food was not in the cart yet. */
  lemma {:induction false} AddLineLength(items: seq<CartLine>, food: FoodId, qty: nat)
    ensures |AddLine(items, food, qty)| == if food in FoodSet(items) then |items| else |items| + 1
  {
    if items != [] {
      AddLineLength(items[1..], food, qty);
      if items[0].food == food {
        assert food in FoodSet(items);
      } else {
        assert food in FoodSet(items) <==> food in FoodSet(items[1..]) by {
          if food in FoodSet(items) {
            var k :| 0 <= k < |items| && items[k].food == food;
            assert items[1..][k - 1].food == food;
          }
          if food in FoodSet(items[1..]) {
            var k :| 0 <= k < |items[1..]| && items[1..][k].food == food;
            assert items[k + 1].food == food;
          }
        }
      }
    }
  }

  /** Adding `q1` and then `q2` of a food is adding `q1 + q2` of it once. */
  lemma {:induction false} AddLineTwice(items: seq<CartLine>, food: FoodId, q1: nat, q2: nat)
    ensures AddLine(AddLine(items, food, q1), food, q2) == AddLine(items, food, q1 + q2)
  {
    if items != [] && items[0].food != food {
      AddLineTwice(items[1..], food, q1, q2);
    }
  }

  /** From an empty cart, two adds of a food leave one line with their sum. */
  lemma AddTwiceToEmpty(food: FoodId, q1: nat, q2: nat)
    ensures AddLine(AddLine([], food, q1), food, q2) == [CartLine(food, q1 + q2)]
  {
    AddLineTwice([], food, q1, q2);
  }

  /** The Cart collection, keyed by the owning user. */
  class CartStore {
    var carts: map<UserId, seq<CartLine>>

    ghost predicate Valid()
      reads this
    {
      forall u :: u in carts ==> ValidItems(carts[u])
    }

    constructor ()
      ensures Valid() && carts == map[]
    {
      carts := map[];
    }

    /**
     * addToCartController. Missing or malformed ids and a bad quantity are
     * a BadRequest, an unknown food NotFound, an unavailable one a
     * Conflict; in those cases no cart changes. Otherwise the user's cart,
     * created if absent, is merged with (food, quantity).
     */
    method Add(catalog: Catalog.FoodStore, user: IdArg, food: IdArg, quantity: Json) returns (r: Code)
      requires Valid()
      modifies this
      ensures Valid()
      ensures r == BadRequest <==> !user.Ref? || !food.Ref? || QuantityArg(quantity).None?
      ensures r == NotFound <==> user.Ref? && food.Ref? && QuantityArg(quantity).Some?
                                 && food.id !in catalog.foods
      ensures r == Conflict <==> user.Ref? && food.Ref? && QuantityArg(quantity).Some?
                                 && food.id in catalog.foods && !catalog.foods[food.id].isAvailable
      ensures r == Ok <==> user.Ref? && food.Ref? && QuantityArg(quantity).Some?
                           && food.id in catalog.foods && catalog.foods[food.id].isAvailable
      ensures r == Ok ==> carts == old(carts)[user.id := AddLine(ItemsOf(old(carts), user.id), food.id, QuantityArg(quantity).value)]
      ensures r != Ok ==> carts == old(carts)
    {
      if !user.Ref? || !food.Ref? {
        return BadRequest;
      }
      var q := QuantityArg(quantity);
      if q.None? {
        return BadRequest;
      }
      if food.id !in catalog.foods {
        return NotFound;
      }
      if !catalog.foods[food.id].isAvailable {
        return Conflict;
      }
      var items;
      if user.id !in carts {
        items := [CartLine(food.id, q.value)];
      } else {
        items := carts[user.id];
        var i := FindLine(items, food.id);
        if i >= 0 {
          AddLineAt(items, food.id, q.value, i);
          items := items[i := CartLine(food.id, items[i].quantity + q.value)];
        } else {
          AddLineAppends(items, food.id, q.value);
          items := items + [CartLine(food.id, q.value)];
        }
      }
      AddLineValid(ItemsOf(carts, user.id), food.id, q.value);
      carts := carts[user.id := items];
      r := Ok;
    }

    /**
     * getCartController: the user's lines, or the empty synthetic cart of a
     * user who has none; nothing is stored.
     */
    method Get(user: IdArg) returns (r: Code, items: seq<CartLine>)
      ensures r == BadRequest <==> !user.Ref?
      ensures r == Ok <==> user.Ref?
      ensures r == Ok ==> items == ItemsOf(carts, user.id)
      ensures r == Ok && user.id !in carts ==> items == []
      ensures r == BadRequest ==> items == []
    {
      if !user.Ref? {
        return BadRequest, [];
      }
      if user.id !in carts {
        return Ok, [];
      }
      r, items := Ok, carts[user.id];
    }

    /**
     * clearCartController: an upsert of the user's cart to no lines; other
     * users' carts are untouched.
     */
    method Clear(user: IdArg) returns (r: Code)
      requires Valid()
      modifies this
      ensures Valid()
      ensures r == BadRequest <==> !user.Ref?
      ensures r == Ok <==> user.Ref?
      ensures r == Ok ==> carts == old(carts)[user.id := []]
      ensures r != Ok ==> carts == old(carts)
    {
      if !user.Ref? {
        return BadRequest;
      }
      carts := carts[user.id := []];
      r := Ok;
    }
  }
}
