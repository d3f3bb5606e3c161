/**
 * The food controller: listing, creating, partially updating and soft
 * deleting catalog items, over the store of Food documents.
 */
module Catalog {
  import opened Js
  import opened Api
  import opened FoodModel

  /** A listed document: its id and its fields. */
  datatype Listed = Listed(id: FoodId, food: Food)

  function ListedIds(listing: seq<Listed>): (ids: seq<FoodId>)
    ensures |ids| == |listing|
    ensures forall k :: 0 <= k < |listing| ==> ids[k] == listing[k].id
  {
    if listing == [] then [] else [listing[0].id] + ListedIds(listing[1..])
  }

  /** Ordered by `createdAt`, newest first. */
  predicate NewestFirst(listing: seq<Listed>) {
    forall i, j :: 0 <= i < j < |listing| ==> listing[i].food.createdAt >= listing[j].food.createdAt
  }

  predicate DistinctIds(listing: seq<Listed>) {
    forall i, j :: 0 <= i < j < |listing| ==> listing[i].id != listing[j].id
  }

  /** Puts `e` into a newest-first listing where its `createdAt` belongs. */
  method InsertNewestFirst(listing: seq<Listed>, e: Listed) returns (r: seq<Listed>, at: nat)
    requires NewestFirst(listing)
    ensures at <= |listing| && r == listing[..at] + [e] + listing[at..]
    ensures NewestFirst(r)
  {
    at := 0;
    while at < |listing| && listing[at].food.createdAt > e.food.createdAt
      invariant at <= |listing|
      invariant forall k :: 0 <= k < at ==> listing[k].food.createdAt > e.food.createdAt
    {
      at := at + 1;
    }
    r := listing[..at] + [e] + listing[at..];
    forall i, j | 0 <= i < j < |r| ensures r[i].food.createdAt >= r[j].food.createdAt {
      if j < at {
        assert r[i] == listing[i] && r[j] == listing[j];
      } else if j == at {
        assert r[i] == listing[i];
      } else if i == at {
        assert r[j] == listing[j - 1];
        assert listing[at].food.createdAt <= e.food.createdAt;
      } else if i < at {
        assert r[i] == listing[i] && r[j] == listing[j - 1];
      } else {
        assert r[i] == listing[i - 1] && r[j] == listing[j - 1];
      }
    }
  }

  /** The entry at index `k` after inserting `e` at `at`. */
  lemma InsertedAt(before: seq<Listed>, e: Listed, at: nat, after: seq<Listed>, k: nat)
    requires at <= |before| && after == before[..at] + [e] + before[at..]
    requires k < |after|
    ensures |after| == |before| + 1
    ensures after[k] == if k < at then before[k] else if k == at then e else before[k - 1]
  {
  }

  /** Inserting `e` adds its id to the ids of a listing and nothing else. */
  lemma InsertedIds(before: seq<Listed>, e: Listed, at: nat, after: seq<Listed>)
    requires at <= |before| && after == before[..at] + [e] + before[at..]
    ensures forall x :: x in ListedIds(after) <==> x in ListedIds(before) || x == e.id
  {
    var ib, ia := ListedIds(before), ListedIds(after);
    forall x | x in ia ensures x in ib || x == e.id {
      var k :| 0 <= k < |ia| && ia[k] == x;
      InsertedAt(before, e, at, after, k);
      if k < at { assert ib[k] == x; }
      else if k > at { assert ib[k - 1] == x; }
    }
    forall x | x in ib ensures x in ia {
      var k :| 0 <= k < |ib| && ib[k] == x;
      var k' := if k < at then k else k + 1;
      InsertedAt(before, e, at, after, k');
      assert ia[k'] == x;
    }
    InsertedAt(before, e, at, after, at);
    assert ia[at] == e.id;
  }

  /** Inserting an entry whose id is new keeps the ids of a listing distinct. */
  lemma InsertedDistinct(before: seq<Listed>, e: Listed, at: nat, after: seq<Listed>)
    requires at <= |before| && after == before[..at] + [e] + before[at..]
    requires DistinctIds(before) && e.id !in ListedIds(before)
    ensures DistinctIds(after)
  {
    var ib := ListedIds(before);
    forall i, j | 0 <= i < j < |after| ensures after[i].id != after[j].id {
      InsertedAt(before, e, at, after, i);
      InsertedAt(before, e, at, after, j);
      if i == at { assert ib[j - 1] == after[j].id; }
      else if j == at { assert ib[i] == after[i].id; }
    }
  }

  /** The `updates` record a partial update builds: the fields the request supplied. */
  datatype Updates = Updates(price: Option<nat>, isAvailable: Option<bool>, name: Option<string>, description: Option<string>) {
    predicate IsEmpty() {
      price.None? && isAvailable.None? && name.None? && description.None?
    }
  }

  /** Writing `u` into a stored document: supplied fields replace, the others stay. */
  function Merge(f: Food, u: Updates): (g: Food)
    ensures g.createdAt == f.createdAt
    ensures u.IsEmpty() ==> g == f
  {
    Food(
      if u.name.Some? then u.name.value else f.name,
      if u.description.Some? then u.description.value else f.description,
      if u.price.Some? then u.price.value else f.price,
      if u.isAvailable.Some? then u.isAvailable.value else f.isAvailable,
      f.createdAt)
  }

  /** Writing trimmed, non-empty texts into a valid document keeps it valid. */
  lemma MergeValid(f: Food, u: Updates)
    requires ValidFood(f)
    requires u.name.Some? ==> StoredText(u.name.value)
    requires u.description.Some? ==> StoredText(u.description.value)
    ensures ValidFood(Merge(f, u))
  {
  }

  /** A price argument the controller accepts: a number that is not negative. */
  predicate PriceOk(v: Json) {
    v.Num? && v.n >= 0
  }

  /** A text argument the partial update accepts: a string that is not blank. */
  predicate TextOk(v: Json) {
    v.Str? && Trim(v.s) != []
  }

  /** The checks of a partial update on each field it supplies. */
  predicate UpdateArgsOk(price: Json, isAvailable: Json, name: Json, description: Json) {
    && (price.Undefined? || PriceOk(price))
    && (isAvailable.Undefined? || isAvailable.Bool?)
    && (name.Undefined? || TextOk(name))
    && (description.Undefined? || TextOk(description))
  }

  predicate NoneSupplied(price: Json, isAvailable: Json, name: Json, description: Json) {
    price.Undefined? && isAvailable.Undefined? && name.Undefined? && description.Undefined?
  }

  /**
   * The field-by-field checks of a partial update, building the `updates`
   * record; `ok` is false as soon as one supplied field fails its check.
   */
  method BuildUpdates(price: Json, isAvailable: Json, name: Json, description: Json) returns (ok: bool, updates: Updates)
    ensures ok <==> UpdateArgsOk(price, isAvailable, name, description)
    ensures ok ==> (updates.IsEmpty() <==> NoneSupplied(price, isAvailable, name, description))
    ensures ok ==> updates.price == (if price.Undefined? then None else Some(price.n))
    ensures ok ==> updates.isAvailable == (if isAvailable.Undefined? then None else Some(isAvailable.b))
    ensures ok ==> updates.name == (if name.Undefined? then None else Some(Trim(name.s)))
    ensures ok ==> updates.description == (if description.Undefined? then None else Some(Trim(description.s)))
    ensures ok && updates.name.Some? ==> StoredText(updates.name.value)
    ensures ok && updates.description.Some? ==> StoredText(updates.description.value)
  {
    updates := Updates(None, None, None, None);
    ok := false;
    if !price.Undefined? {
      if !price.Num? || price.n < 0 {
        return;
      }
      updates := updates.(price := Some(price.n));
    }
    if !isAvailable.Undefined? {
      if !isAvailable.Bool? {
        return;
      }
      updates := updates.(isAvailable := Some(isAvailable.b));
    }
    if !name.Undefined? {
      if !name.Str? || Trim(name.s) == [] {
        return;
      }
      updates := updates.(name := Some(Trim(name.s)));
      TrimIdempotent(name.s);
    }
    if !description.Undefined? {
      if !description.Str? || Trim(description.s) == [] {
        return;
      }
      updates := updates.(description := Some(Trim(description.s)));
      TrimIdempotent(description.s);
    }
    ok := true;
  }

  /** The Food collection; `nextId` stands for the ids MongoDB has not handed out yet. */
  class FoodStore {
    var foods: map<FoodId, Food>
    var nextId: FoodId

    ghost predicate Valid()
      reads this
    {
      forall id :: id in foods ==> id < nextId && ValidFood(foods[id])
    }

    constructor ()
      ensures Valid() && foods == map[] && nextId == 0
    {
      foods := map[];
      nextId := 0;
    }

    /**
     * getFoodsController: exactly the available documents, each once,
     * newest first.
     */
    method List() returns (listing: seq<Listed>)
      ensures forall id :: id in ListedIds(listing) <==> id in foods && foods[id].isAvailable
      ensures forall k :: 0 <= k < |listing| ==> listing[k].id in foods && listing[k].food == foods[listing[k].id]
      ensures DistinctIds(listing)
      ensures NewestFirst(listing)
    {
      var pending := foods.Keys;
      listing := [];
      while pending != {}
        invariant pending <= foods.Keys
        invariant forall k :: 0 <= k < |listing| ==>
          listing[k].id in foods && listing[k].id !in pending
          && listing[k].food == foods[listing[k].id] && listing[k].food.isAvailable
        invariant forall id :: id in foods && id !in pending && foods[id].isAvailable ==> id in ListedIds(listing)
        invariant DistinctIds(listing)
        invariant NewestFirst(listing)
        decreases pending
      {
        var id :| id in pending;
        if foods[id].isAvailable {
          var at;
          ghost var before := listing;
          listing, at := InsertNewestFirst(listing, Listed(id, foods[id]));
          InsertedIds(before, Listed(id, foods[id]), at, listing);
          InsertedDistinct(before, Listed(id, foods[id]), at, listing);
          forall k | 0 <= k < |listing| ensures listing[k] == Listed(id, foods[id]) || listing[k] in before {
            InsertedAt(before, Listed(id, foods[id]), at, listing, k);
          }
        }
        pending := pending - {id};
      }
      forall id | id in ListedIds(listing) ensures id in foods && foods[id].isAvailable {
        var k :| 0 <= k < |listing| && ListedIds(listing)[k] == id;
      }
    }

    /**
     * createFoodController. A falsy name or description, or a price that is
     * not a non-negative number, is a BadRequest. A truthy name or
     * description that is not a string makes `.trim` throw, and one that is
     * blank fails the schema's `required` check: both are a ServerError.
     * Otherwise the trimmed document is stored under a fresh id.
     */
    method Create(name: Json, description: Json, price: Json, isAvailable: Json, now: int) returns (r: Code, created: Option<FoodId>)
      requires Valid()
      modifies this
      ensures Valid()
      ensures r == BadRequest <==> !Truthy(name) || !Truthy(description) || !PriceOk(price)
      ensures r == ServerError <==> Truthy(name) && Truthy(description) && PriceOk(price)
                                    && !(TextOk(name) && TextOk(description))
      ensures r == Created <==> PriceOk(price) && TextOk(name) && TextOk(description)
      ensures r == Created ==>
        && created == Some(old(nextId)) && nextId == old(nextId) + 1
        && foods == old(foods)[old(nextId) := Food(Trim(name.s), Trim(description.s), price.n,
                                                   if isAvailable.Bool? then isAvailable.b else true, now)]
      ensures r != Created ==> created == None && foods == old(foods) && nextId == old(nextId)
    {
      if !Truthy(name) || !Truthy(description) || price.Undefined? {
        return BadRequest, None;
      }
      if !price.Num? || price.n < 0 {
        return BadRequest, None;
      }
      if !name.Str? || !description.Str? {
        return ServerError, None;
      }
      var doc := NewFood(Trim(name.s), Trim(description.s), price.n,
                         if isAvailable.Bool? then Some(isAvailable.b) else None, now);
      TrimIdempotent(name.s);
      TrimIdempotent(description.s);
      if doc.None? {
        return ServerError, None;
      }
      foods := foods[nextId := doc.value];
      created := Some(nextId);
      nextId := nextId + 1;
      r := Created;
    }

    /**
     * updateFoodController. Each supplied field is checked in turn and a
     * failing one is a BadRequest, as is a request that supplies none; only
     * then is the id looked up. The supplied fields, texts trimmed, replace
     * the stored ones and nothing else changes.
     */
    method Update(id: IdArg, price: Json, isAvailable: Json, name: Json, description: Json) returns (r: Code)
      requires Valid()
      modifies this
      ensures Valid() && nextId == old(nextId)
      ensures r == BadRequest <==> !id.Ref? || !UpdateArgsOk(price, isAvailable, name, description)
                                   || NoneSupplied(price, isAvailable, name, description)
      ensures r == NotFound <==> id.Ref? && UpdateArgsOk(price, isAvailable, name, description)
                                 && !NoneSupplied(price, isAvailable, name, description) && id.id !in old(foods)
      ensures r == Ok <==> id.Ref? && UpdateArgsOk(price, isAvailable, name, description)
                           && !NoneSupplied(price, isAvailable, name, description) && id.id in old(foods)
      ensures r != Ok ==> foods == old(foods)
      ensures r == Ok ==> foods.Keys == old(foods).Keys
      ensures r == Ok ==> forall k :: k in foods && k != id.id ==> foods[k] == old(foods)[k]
      ensures r == Ok ==>
        var f, g := old(foods)[id.id], foods[id.id];
        && g.price == (if price.Undefined? then f.price else price.n)
        && g.isAvailable == (if isAvailable.Undefined? then f.isAvailable else isAvailable.b)
        && g.name == (if name.Undefined? then f.name else Trim(name.s))
        && g.description == (if description.Undefined? then f.description else Trim(description.s))
        && g.createdAt == f.createdAt
    {
      if !id.Ref? {
        return BadRequest;
      }
      var ok, updates := BuildUpdates(price, isAvailable, name, description);
      if !ok {
        return BadRequest;
      }
      if updates.IsEmpty() {
        return BadRequest;
      }
      if id.id !in foods {
        return NotFound;
      }
      var f := foods[id.id];
      var g := Merge(f, updates);
      MergeValid(f, updates);
      assert g.name == (if name.Undefined? then f.name else Trim(name.s));
      assert g.description == (if description.Undefined? then f.description else Trim(description.s));
      foods := foods[id.id := g];
      r := Ok;
    }

    /**
     * deleteFoodController: a soft delete. The document stays, with
     * `isAvailable` false and every other field as it was.
     */
    method Delete(id: IdArg) returns (r: Code)
      requires Valid()
      modifies this
      ensures Valid() && nextId == old(nextId)
      ensures r == BadRequest <==> !id.Ref?
      ensures r == NotFound <==> id.Ref? && id.id !in old(foods)
      ensures r == Ok <==> id.Ref? && id.id in old(foods)
      ensures r == Ok ==> foods == old(foods)[id.id := old(foods)[id.id].(isAvailable := false)]
      ensures r != Ok ==> foods == old(foods)
    {
      if !id.Ref? {
        return BadRequest;
      }
      if id.id !in foods {
        return NotFound;
      }
      foods := foods[id.id := foods[id.id].(isAvailable := false)];
      r := Ok;
    }
  }
}
