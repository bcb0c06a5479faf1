/**
 * `arrayMove` of the drag-and-drop sorting library: a new array in which the
 * element at `from` has been taken out and put back in at `to`, the elements
 * between the two positions shifting by one (a move, not a swap).
 * Only in-range indices are modelled.
 */
module Sortable {

  /** The sequence without its element at `i`. */
  function RemoveAt<T>(s: seq<T>, i: nat): (r: seq<T>)
    requires i < |s|
    ensures |r| == |s| - 1
    ensures forall k :: 0 <= k < |r| ==> r[k] == if k < i then s[k] else s[k + 1]
  {
    s[..i] + s[i + 1..]
  }

  /** The sequence with `x` inserted so that it lands at position `i`. */
  function InsertAt<T>(s: seq<T>, i: nat, x: T): (r: seq<T>)
    requires i <= |s|
    ensures |r| == |s| + 1 && r[i] == x
    ensures forall k :: 0 <= k < |r| && k != i ==> r[k] == if k < i then s[k] else s[k - 1]
  {
    s[..i] + [x] + s[i..]
  }

  function ArrayMove<T>(s: seq<T>, from: nat, to: nat): (r: seq<T>)
    requires from < |s| && to < |s|
    ensures |r| == |s|
    ensures r[to] == s[from]
    ensures RemoveAt(r, to) == RemoveAt(s, from)
  {
    InsertAt(RemoveAt(s, from), to, s[from])
  }

  /** The position, before the move, of the element found at position `i` after it. */
  function Origin(from: nat, to: nat, i: nat): nat
  {
    if i == to then from
    else if from <= i < to then i + 1
    else if to < i <= from then i - 1
    else i
  }

  /** Every element after the move is the element that stood at its origin before it. */
  lemma ArrayMoveAt<T>(s: seq<T>, from: nat, to: nat, i: nat)
    requires from < |s| && to < |s| && i < |s|
    ensures Origin(from, to, i) < |s|
    ensures ArrayMove(s, from, to)[i] == s[Origin(from, to, i)]
  {
  }

  /** No two positions after the move come from the same position before it. */
  lemma OriginInjective(from: nat, to: nat, i: nat, j: nat)
    requires i != j
    ensures Origin(from, to, i) != Origin(from, to, j)
  {
  }

  /** A move neither duplicates nor loses an element. */
  lemma ArrayMovePermutes<T>(s: seq<T>, from: nat, to: nat)
    requires from < |s| && to < |s|
    ensures multiset(ArrayMove(s, from, to)) == multiset(s)
  {
    var rest := RemoveAt(s, from);
    assert s == s[..from] + [s[from]] + s[from + 1..];
    assert multiset(s) == multiset(rest) + multiset{s[from]};
    assert rest == rest[..to] + rest[to..];
  }

  /** Moving the element back from `to` to `from` restores the original order. */
  lemma ArrayMoveUndo<T>(s: seq<T>, from: nat, to: nat)
    requires from < |s| && to < |s|
    ensures ArrayMove(ArrayMove(s, from, to), to, from) == s
  {
    var rest := RemoveAt(s, from);
    assert rest[..from] == s[..from];
    assert rest[from..] == s[from + 1..];
    assert s == s[..from] + [s[from]] + s[from + 1..];
  }

  /** Dragging the first of three items onto the last: [A, B, C] becomes [B, C, A]. */
  lemma ArrayMoveFirstToLast<T>(a: T, b: T, c: T)
    ensures ArrayMove([a, b, c], 0, 2) == [b, c, a]
  {
  }
}
