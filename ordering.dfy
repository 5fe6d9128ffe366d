/**
 * Sorting with a JavaScript comparator of the form `(a, b) => key(a) - key(b)`.
 *
 * Array.prototype.sort places `a` after `b` exactly when the comparator returns
 * a positive number; NaN counts as 0, so a key that is NaN, or two keys that are
 * both +Infinity (whose difference is NaN), tie with their neighbour.
 */
module Ordering {

  /** A JavaScript number used as a sort key. */
  datatype Number = Finite(value: real) | Infinity | NaN

  /** `x - y > 0`: the comparator asks for `x` to be placed after `y`. */
  predicate Exceeds(x: Number, y: Number) {
    match (x, y)
    case (Finite(a), Finite(b)) => a > b
    case (Infinity, Finite(_)) => true
    case _ => false
  }

  /** `x` may come before `y` in a sorted result. */
  predicate InOrder(x: Number, y: Number) {
    !Exceeds(x, y)
  }

  /** Every element may come before its right-hand neighbour. */
  ghost predicate AdjacentInOrder<T>(s: seq<T>, key: T -> Number) {
    forall k :: 0 < k < |s| ==> InOrder(key(s[k - 1]), key(s[k]))
  }

  /** Every element may come before every later element. */
  ghost predicate Ordered<T>(s: seq<T>, key: T -> Number) {
    forall i, j :: 0 <= i < j < |s| ==> InOrder(key(s[i]), key(s[j]))
  }

  /** Whichever way round two keys are compared, at most one of them exceeds the other. */
  lemma ExceedsAsymmetric(x: Number, y: Number)
    ensures Exceeds(x, y) ==> InOrder(y, x)
  {
  }

  /** The order is transitive through any key that is not NaN. */
  lemma InOrderTransitive(x: Number, y: Number, z: Number)
    requires y != NaN
    requires InOrder(x, y) && InOrder(y, z)
    ensures InOrder(x, z)
  {
  }

  lemma {:induction false} OrderedSpan<T>(s: seq<T>, key: T -> Number, i: nat, j: nat)
    requires AdjacentInOrder(s, key)
    requires forall k :: 0 <= k < |s| ==> key(s[k]) != NaN
    requires i < j < |s|
    ensures InOrder(key(s[i]), key(s[j]))
    decreases j - i
  {
    if i + 1 < j {
      OrderedSpan(s, key, i, j - 1);
      InOrderTransitive(key(s[i]), key(s[j - 1]), key(s[j]));
    }
  }

  /** Without NaN keys, neighbour-by-neighbour order is order of the whole sequence. */
  lemma {:induction false} OrderedFromAdjacent<T>(s: seq<T>, key: T -> Number)
    requires AdjacentInOrder(s, key)
    requires forall k :: 0 <= k < |s| ==> key(s[k]) != NaN
    ensures Ordered(s, key)
  {
    forall i, j | 0 <= i < j < |s|
      ensures InOrder(key(s[i]), key(s[j]))
    {
      OrderedSpan(s, key, i, j);
    }
  }

  method Swap<T>(a: array<T>, i: nat, j: nat)
    requires i < a.Length && j < a.Length
    modifies a
    ensures a[..] == old(a[..])[i := old(a[j])][j := old(a[i])]
    ensures multiset(a[..]) == multiset(old(a[..]))
  {
    a[i], a[j] := a[j], a[i];
  }

  /**
   * Array.prototype.sort with the comparator `(x, y) => key(x) - key(y)`, as a
   * stable insertion sort: each element moves left past every neighbour that
   * exceeds it and stops at the first one that does not.
   */
  method SortInPlace<T>(a: array<T>, key: T -> Number)
    modifies a
    ensures multiset(a[..]) == multiset(old(a[..]))
    ensures AdjacentInOrder(a[..], key)
  {
    var i := 0;
    while i < a.Length
      invariant 0 <= i <= a.Length
      invariant multiset(a[..]) == multiset(old(a[..]))
      invariant forall k :: 0 < k < i ==> InOrder(key(a[k - 1]), key(a[k]))
    {
      var j := i;
      while 0 < j && Exceeds(key(a[j - 1]), key(a[j]))
        invariant 0 <= j <= i < a.Length
        invariant multiset(a[..]) == multiset(old(a[..]))
        invariant forall k :: 0 < k <= i && k != j ==> InOrder(key(a[k - 1]), key(a[k]))
        invariant 0 < j < i ==> InOrder(key(a[j - 1]), key(a[j + 1]))
      {
        ExceedsAsymmetric(key(a[j - 1]), key(a[j]));
        Swap(a, j - 1, j);
        j := j - 1;
      }
      i := i + 1;
    }
  }
}
