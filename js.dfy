/**
 * The JavaScript values a controller receives in a parsed JSON request
 * body, JavaScript's truthiness test on them, and String.prototype.trim.
 */
module Js {

  datatype Option<+T> = None | Some(value: T)

  /**
   * A field of a JSON request body. `Undefined` is a key that is absent;
   * `Composite` is an array or an object. JSON numbers are finite; this
   * model keeps only the integral ones (prices in integer cents).
   */
  datatype Json = Undefined | Null | Bool(b: bool) | Num(n: int) | Str(s: string) | Composite

  /** ECMAScript ToBoolean: what `if (v)` and `!v` test. */
  predicate Truthy(v: Json) {
    match v
    case Undefined => false
    case Null => false
    case Bool(b) => b
    case Num(n) => n != 0
    case Str(s) => s != ""
    case Composite => true
  }

  /**
   * The code points `trim` strips: the WhiteSpace production of ECMAScript
   * (TAB, VT, FF, SP, NBSP, ZWNBSP and the Zs category) and its
   * LineTerminator production (LF, CR, LS, PS).
   */
  predicate IsTrimmable(c: char) {
    || c == '\t' || c == '\n' || c == '\U{000B}' || c == '\U{000C}' || c == '\r'
    || c == ' ' || c == '\U{00A0}' || c == '\U{1680}'
    || ('\U{2000}' <= c <= '\U{200A}')
    || c == '\U{2028}' || c == '\U{2029}' || c == '\U{202F}' || c == '\U{205F}'
    || c == '\U{3000}' || c == '\U{FEFF}'
  }

  predicate AllTrimmable(s: string) {
    forall k :: 0 <= k < |s| ==> IsTrimmable(s[k])
  }

  /** True when `s` neither starts nor ends with a trimmable code point. */
  predicate Trimmed(s: string) {
    s == [] || (!IsTrimmable(s[0]) && !IsTrimmable(s[|s| - 1]))
  }

  /** The index of the first code point of `s`, at or after `i`, that trim keeps. */
  function SkipLeading(s: string, i: nat): (j: nat)
    requires i <= |s|
    decreases |s| - i
    ensures i <= j <= |s|
    ensures forall k :: i <= k < j ==> IsTrimmable(s[k])
    ensures j < |s| ==> !IsTrimmable(s[j])
  {
    if i < |s| && IsTrimmable(s[i]) then SkipLeading(s, i + 1) else i
  }

  /** The end, at or after `lo` and at most `hi`, of the code points trim keeps. */
  function SkipTrailing(s: string, lo: nat, hi: nat): (j: nat)
    requires lo <= hi <= |s|
    decreases hi - lo
    ensures lo <= j <= hi
    ensures forall k :: j <= k < hi ==> IsTrimmable(s[k])
    ensures j > lo ==> !IsTrimmable(s[j - 1])
  {
    if lo < hi && IsTrimmable(s[hi - 1]) then SkipTrailing(s, lo, hi - 1) else hi
  }

  /**
   * `r` is `s` from index `i` on, with only trimmable code points cut off
   * before `i` and after `i + |r|`.
   */
  predicate StripsAt(s: string, r: string, i: int) {
    && 0 <= i <= |s| - |r| && r == s[i..i + |r|]
    && (forall k :: 0 <= k < i ==> IsTrimmable(s[k]))
    && (forall k :: i + |r| <= k < |s| ==> IsTrimmable(s[k]))
  }

  /** String.prototype.trim; `TrimStrips` says what it returns. */
  function Trim(s: string): string {
    var i := SkipLeading(s, 0);
    s[i..SkipTrailing(s, i, |s|)]
  }

  /**
   * `Trim(s)` is the slice of `s` left after cutting off the trimmable code
   * points at both ends: it neither starts nor ends with one, and it is
   * empty exactly when `s` is made of them alone.
   */
  lemma TrimStrips(s: string)
    ensures Trimmed(Trim(s))
    ensures exists i :: StripsAt(s, Trim(s), i)
    ensures Trim(s) == [] <==> AllTrimmable(s)
  {
    var i := SkipLeading(s, 0);
    var j := SkipTrailing(s, i, |s|);
    assert j > i ==> !IsTrimmable(s[i]);
    assert StripsAt(s, s[i..j], i);
  }

  /** Trimming an already trimmed string changes nothing. */
  lemma TrimOfTrimmed(s: string)
    requires Trimmed(s)
    ensures Trim(s) == s
  {
    if s != [] {
      assert SkipLeading(s, 0) == 0;
      assert SkipTrailing(s, 0, |s|) == |s|;
    }
  }

  /** Trimming twice is trimming once. */
  lemma TrimIdempotent(s: string)
    ensures Trim(Trim(s)) == Trim(s)
  {
    TrimStrips(s);
    TrimOfTrimmed(Trim(s));
  }
}
