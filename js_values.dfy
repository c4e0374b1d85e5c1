/**
 * The small pieces of JavaScript semantics the validators and the route rely on:
 * the `length` of a string, the truthiness of an optional message, and
 * `Array.prototype.includes` on a list of strings.
 */
module JsValues {
  import opened Wrappers

  /** Number of UTF-16 code units JavaScript uses for one character. */
  function CodeUnits(c: char): (n: nat)
    ensures 1 <= n <= 2
  {
    if c as int < 0x1_0000 then 1 else 2
  }

  /** JavaScript `s.length`: the number of UTF-16 code units of `s`. */
  function JsLength(s: string): (n: nat)
    ensures |s| <= n <= 2 * |s|
  {
    if s == [] then 0 else CodeUnits(s[0]) + JsLength(s[1..])
  }

  /** Every character of `s` lies in the Basic Multilingual Plane. */
  predicate InBmp(s: string)
  {
    forall i :: 0 <= i < |s| ==> s[i] as int < 0x1_0000
  }

  /** On text of the Basic Multilingual Plane, `length` is the character count. */
  lemma {:induction false} JsLengthInBmp(s: string)
    requires InBmp(s)
    ensures JsLength(s) == |s|
  {
    if s != [] {
      assert InBmp(s[1..]);
      JsLengthInBmp(s[1..]);
    }
  }

  /**
   * JavaScript truthiness of a value that is either `undefined` or a string:
   * `undefined` and `""` are falsy, every other string is truthy.
   */
  predicate Truthy(v: Option<string>)
  {
    v.Some? && |v.value| > 0
  }

  /** `list.includes(x)`: a front-to-back search for an element equal to `x`. */
  function Includes<T(==)>(list: seq<T>, x: T): (found: bool)
    ensures found <==> x in list
  {
    if list == [] then false else list[0] == x || Includes(list[1..], x)
  }
}
