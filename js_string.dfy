/**
 * The few JavaScript built-ins the hook's logic depends on: `String.prototype.indexOf`
 * and the truthiness of numbers and optional strings. A Dafny string is a sequence
 * of Unicode scalar values, where JavaScript counts UTF-16 code units; positions
 * can differ between the two views, but for the ASCII patterns searched here
 * whether the result is -1, 0 or positive is the same in both.
 */
module JsString {
  import opened Wrappers

  /** `p` occurs in `s` starting at index `i`. */
  predicate OccursAt(s: string, p: string, i: nat) {
    i + |p| <= |s| && s[i..i + |p|] == p
  }

  predicate StartsWith(s: string, p: string) {
    |p| <= |s| && s[..|p|] == p
  }

  predicate Contains(s: string, p: string) {
    exists i: nat | i <= |s| :: OccursAt(s, p, i)
  }

  /** `s.indexOf(p, k)` for `k <= |s|`: the first occurrence of `p` at or after `k`, or -1. */
  function IndexOfFrom(s: string, p: string, k: nat): (r: int)
    requires k <= |s|
    ensures r == -1 || (k <= r <= |s| && OccursAt(s, p, r))
    ensures forall j: nat :: k <= j && (r == -1 || j < r) ==> !OccursAt(s, p, j)
    decreases |s| - k
  {
    if OccursAt(s, p, k) then k
    else if k == |s| then -1
    else IndexOfFrom(s, p, k + 1)
  }

  /** `s.indexOf(p)`: -1 exactly when `p` does not occur, 0 exactly when `s` starts with `p`. */
  function IndexOf(s: string, p: string): (r: int)
    ensures r >= -1
    ensures r == -1 <==> !Contains(s, p)
    ensures r == 0 <==> StartsWith(s, p)
    ensures r >= 0 ==> OccursAt(s, p, r) && forall j: nat :: j < r ==> !OccursAt(s, p, j)
  {
    var r := IndexOfFrom(s, p, 0);
    assert StartsWith(s, p) <==> OccursAt(s, p, 0) by {
      if |p| <= |s| { assert s[..|p|] == s[0..0 + |p|]; }
    }
    r
  }

  /** JavaScript truthiness of a number: every value but 0 is truthy (NaN does not arise here). */
  predicate NumberTruthy(n: int) {
    n != 0
  }

  /** JavaScript truthiness of a property that is `undefined` or a string. */
  predicate StringTruthy(v: Option<string>) {
    v.Some? && v.value != ""
  }

  /** JavaScript `a || b` where `a` is `undefined` or a string. */
  function Or(a: Option<string>, b: string): string {
    if StringTruthy(a) then a.value else b
  }
}
