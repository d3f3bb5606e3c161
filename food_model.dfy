/** The Food document of the catalog: its fields, their constraints and defaults. */
module FoodModel {
  import opened Js

  /** A catalog item; `createdAt` is the creation timestamp the schema adds. */
  datatype Food = Food(name: string, description: string, price: nat, isAvailable: bool, createdAt: int)

  /** `isAvailable` when the creator does not give one. */
  const DefaultAvailable: bool := true

  /** A `required`, `trim`med String field as stored: non-empty and trimmed. */
  predicate StoredText(s: string) {
    s != [] && Trim(s) == s
  }

  /** The schema's constraints on a stored Food (a `nat` price is never negative). */
  predicate ValidFood(f: Food) {
    StoredText(f.name) && StoredText(f.description)
  }

  /**
   * Building and validating a new document: the `trim` setters run on the
   * text fields, `isAvailable` takes its default when not given, and the
   * `required` validators reject a text field that is empty after trimming.
   */
  function NewFood(name: string, description: string, price: nat, isAvailable: Option<bool>, now: int): (r: Option<Food>)
    ensures r.Some? <==> Trim(name) != [] && Trim(description) != []
    ensures r.Some? ==> ValidFood(r.value)
    ensures r.Some? ==> r.value.name == Trim(name) && r.value.description == Trim(description)
    ensures r.Some? ==> r.value.price == price && r.value.createdAt == now
    ensures r.Some? ==> r.value.isAvailable == (if isAvailable.Some? then isAvailable.value else true)
  {
    var n, d := Trim(name), Trim(description);
    TrimIdempotent(name);
    TrimIdempotent(description);
    if n == [] || d == [] then None
    else Some(Food(n, d, price, if isAvailable.Some? then isAvailable.value else DefaultAvailable, now))
  }
}
