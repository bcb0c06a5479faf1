/**
 * The three JavaScript array methods the drag handlers rely on:
 * `Array.prototype.findIndex`, `Array.prototype.find` and
 * `Array.prototype.some`, over an immutable sequence and a total predicate.
 */
module JsArray {
  import opened Wrappers

  /** `xs.findIndex(p)`: the index of the first element satisfying `p`, or -1 when there is none. */
  function FindIndex<T>(xs: seq<T>, p: T -> bool): (r: int)
    ensures -1 <= r < |xs|
    ensures r == -1 <==> forall i :: 0 <= i < |xs| ==> !p(xs[i])
    ensures 0 <= r ==> p(xs[r]) && forall i :: 0 <= i < r ==> !p(xs[i])
  {
    if xs == [] then -1
    else if p(xs[0]) then 0
    else
      var k := FindIndex(xs[1..], p);
      if k == -1 then -1 else k + 1
  }

  /** `xs.find(p)`: the first element satisfying `p`, or `undefined` (None). */
  function Find<T>(xs: seq<T>, p: T -> bool): (r: Option<T>)
    ensures r.None? <==> forall i :: 0 <= i < |xs| ==> !p(xs[i])
    ensures r.Some? ==> r.value in xs && p(r.value)
  {
    if xs == [] then None
    else if p(xs[0]) then Some(xs[0])
    else Find(xs[1..], p)
  }

  /** `xs.some(p)`: whether any element satisfies `p`. */
  function Any<T>(xs: seq<T>, p: T -> bool): (r: bool)
    ensures r <==> exists i :: 0 <= i < |xs| && p(xs[i])
  {
    xs != [] && (p(xs[0]) || Any(xs[1..], p))
  }

  /** `find` returns exactly the element at the index `findIndex` reports. */
  lemma {:induction false} FindIsAtFindIndex<T>(xs: seq<T>, p: T -> bool)
    ensures var k := FindIndex(xs, p);
      Find(xs, p) == if k == -1 then None else Some(xs[k])
  {
    if xs != [] && !p(xs[0]) {
      FindIsAtFindIndex(xs[1..], p);
    }
  }

  /** `some` holds exactly when `findIndex` finds an index. */
  lemma AnyIffFound<T>(xs: seq<T>, p: T -> bool)
    ensures Any(xs, p) <==> FindIndex(xs, p) >= 0
  {
  }

  /** When exactly one element satisfies `p`, `findIndex` reports that element's index. */
  lemma FindIndexOfOnly<T>(xs: seq<T>, p: T -> bool, k: nat)
    requires k < |xs| && p(xs[k])
    requires forall i :: 0 <= i < |xs| && i != k ==> !p(xs[i])
    ensures FindIndex(xs, p) == k
  {
  }
}
