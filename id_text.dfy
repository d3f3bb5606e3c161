/**
 * The cart merge at the level of id TEXT. The rest of the model compares
 * food ids as ObjectIds; here a request's food id is the string the client
 * sent, which `ObjectId.isValid` accepts in either case, while a stored line
 * is compared through `toString`, which always gives lower-case hex.
 */
module IdText {

  /** A hexadecimal digit of either case. */
  predicate IsHexDigit(c: char) {
    '0' <= c <= '9' || 'a' <= c <= 'f' || 'A' <= c <= 'F'
  }

  /** The 24-digit hex text `ObjectId.isValid` accepts. */
  predicate IsIdText(t: string) {
    |t| == 24 && forall i :: 0 <= i < |t| ==> IsHexDigit(t[i])
  }

  /** The lower-case form of a hex digit. */
  function Lower(c: char): (r: char)
    ensures 'A' <= c <= 'F' ==> r as int == c as int + 32
    ensures !('A' <= c <= 'F') ==> r == c
    ensures !('A' <= r <= 'F')
  {
    if 'A' <= c <= 'F' then (c as int + 32) as char else c
  }

  /** The text `toString` gives for the ObjectId that `t` denotes. */
  function Canonical(t: string): (r: string)
    ensures |r| == |t|
    ensures forall i :: 0 <= i < |t| ==> r[i] == Lower(t[i])
  {
    if t == [] then [] else [Lower(t[0])] + Canonical(t[1..])
  }

  /** Two id texts denote the same ObjectId. */
  predicate SameObjectId(a: string, b: string) {
    IsIdText(a) && IsIdText(b) && Canonical(a) == Canonical(b)
  }

  /** A cart line as stored: the food id in its `toString` form, and a quantity. */
  datatype TextLine = TextLine(food: string, quantity: nat)

  /** The set of stored food texts of some lines. */
  function Texts(items: seq<TextLine>): set<string> {
    if items == [] then {} else {items[0].food} + Texts(items[1..])
  }

  /** Stored texts are canonical, and no two lines share one: one line per ObjectId. */
  predicate OneLinePerId(items: seq<TextLine>) {
    items == [] ||
    (Canonical(items[0].food) == items[0].food
     && items[0].food !in Texts(items[1..])
     && OneLinePerId(items[1..]))
  }

  /**
   * The merge as the cart controller writes it: the first line whose stored
   * text equals the request's text gains the quantity; without one, a line
   * for the request's ObjectId is appended.
   */
  function AddLineAsWritten(items: seq<TextLine>, t: string, qty: nat): seq<TextLine> {
    if items == [] then [TextLine(Canonical(t), qty)]
    else if items[0].food == t then [TextLine(items[0].food, items[0].quantity + qty)] + items[1..]
    else [items[0]] + AddLineAsWritten(items[1..], t, qty)
  }

  /** The intended merge: the stored text is compared with the request's ObjectId. */
  function AddLineIntended(items: seq<TextLine>, t: string, qty: nat): seq<TextLine> {
    if items == [] then [TextLine(Canonical(t), qty)]
    else if items[0].food == Canonical(t) then [TextLine(items[0].food, items[0].quantity + qty)] + items[1..]
    else [items[0]] + AddLineIntended(items[1..], t, qty)
  }

  /**
   * A cart with one line for a food, and a second request for the same food
   * with its id in upper case: the merge as written stores two lines for one
   * ObjectId.
   */
  lemma AsWrittenDuplicatesLine()
    ensures var stored := seq(24, _ => 'a');
            var request := seq(24, _ => 'A');
            var items := [TextLine(stored, 1)];
            && OneLinePerId(items)
            && SameObjectId(request, stored)
            && !OneLinePerId(AddLineAsWritten(items, request, 1))
  {
  }

  /** The intended merge's stored texts: the old ones and the request's canonical text. */
  lemma {:induction false} IntendedTexts(items: seq<TextLine>, t: string, qty: nat)
    ensures Texts(AddLineIntended(items, t, qty)) == Texts(items) + {Canonical(t)}
  {
    var r := AddLineIntended(items, t, qty);
    if items == [] {
    } else if items[0].food == Canonical(t) {
      assert r[1..] == items[1..];
    } else {
      assert r[1..] == AddLineIntended(items[1..], t, qty);
      IntendedTexts(items[1..], t, qty);
    }
  }

  /** Canonical text is canonical. */
  lemma CanonicalIdempotent(t: string)
    ensures Canonical(Canonical(t)) == Canonical(t)
  {
  }

  /** The intended merge keeps one line per ObjectId, whatever case the request uses. */
  lemma {:induction false} IntendedKeepsOneLinePerId(items: seq<TextLine>, t: string, qty: nat)
    requires OneLinePerId(items)
    ensures OneLinePerId(AddLineIntended(items, t, qty))
  {
    var r := AddLineIntended(items, t, qty);
    if items == [] {
      CanonicalIdempotent(t);
      assert r[1..] == [];
    } else if items[0].food == Canonical(t) {
      assert r[1..] == items[1..];
    } else {
      var rest := AddLineIntended(items[1..], t, qty);
      assert r[1..] == rest;
      IntendedKeepsOneLinePerId(items[1..], t, qty);
      IntendedTexts(items[1..], t, qty);
    }
  }

  /** For a request already in lower case the two merges agree. */
  lemma {:induction false} IntendedAgreesOnCanonical(items: seq<TextLine>, t: string, qty: nat)
    requires Canonical(t) == t
    ensures AddLineIntended(items, t, qty) == AddLineAsWritten(items, t, qty)
  {
    if items != [] && items[0].food != t {
      IntendedAgreesOnCanonical(items[1..], t, qty);
    }
  }
}
