/**
 * The two list transformations the request handlers chain together:
 * Array.prototype.filter and Array.prototype.map, over sequences.
 */
module Lists {

  /** The elements of `s` that satisfy `keep`, in their original order. */
  function Filter<T(==, !new)>(s: seq<T>, keep: T -> bool): (r: seq<T>)
    ensures |r| <= |s|
    ensures forall i :: 0 <= i < |r| ==> keep(r[i])
  {
    if s == [] then []
    else
      assert s == [s[0]] + s[1..];
      (if keep(s[0]) then [s[0]] else []) + Filter(s[1..], keep)
  }

  /** `s` filtered by `keep` when the filter is switched `on`, `s` itself otherwise. */
  function FilterIf<T(==, !new)>(s: seq<T>, on: bool, keep: T -> bool): seq<T> {
    if on then Filter(s, keep) else s
  }

  /** `f` applied to every element of `s`, in order. */
  function Map<T(==, !new), U(==, !new)>(s: seq<T>, f: T -> U): (r: seq<U>)
    ensures |r| == |s|
    ensures forall i {:trigger r[i]} :: 0 <= i < |s| ==> r[i] == f(s[i])
  {
    if s == [] then []
    else
      assert s == [s[0]] + s[1..];
      [f(s[0])] + Map(s[1..], f)
  }

  /** An element survives the filter exactly when it was there and satisfies `keep`. */
  lemma {:induction false} FilterMembers<T(!new)>(s: seq<T>, keep: T -> bool)
    ensures forall x :: x in Filter(s, keep) <==> x in s && keep(x)
  {
    if s != [] {
      assert s == [s[0]] + s[1..];
      FilterMembers(s[1..], keep);
    }
  }

  /** The filter keeps every copy of a kept element and no copy of any other. */
  lemma {:induction false} FilterCount<T(!new)>(s: seq<T>, keep: T -> bool)
    ensures forall x :: multiset(Filter(s, keep))[x] == if keep(x) then multiset(s)[x] else 0
  {
    if s != [] {
      assert s == [s[0]] + s[1..];
      FilterCount(s[1..], keep);
    }
  }

  /** Every element of a mapped sequence is the image of an element of the original. */
  lemma MapMembers<T(!new), U(!new)>(s: seq<T>, f: T -> U)
    ensures forall y :: y in Map(s, f) <==> exists x :: x in s && y == f(x)
  {
    var r := Map(s, f);
    forall y | y in r ensures exists x :: x in s && y == f(x) {
      var i :| 0 <= i < |r| && r[i] == y;
      assert s[i] in s;
    }
    forall x | x in s ensures f(x) in r {
      var i :| 0 <= i < |s| && s[i] == x;
      assert r[i] == f(x);
    }
  }

  lemma {:induction false} FilterAppend<T(!new)>(a: seq<T>, b: seq<T>, keep: T -> bool)
    ensures Filter(a + b, keep) == Filter(a, keep) + Filter(b, keep)
  {
    if a == [] {
      assert a + b == b;
    } else {
      assert (a + b)[0] == a[0];
      assert (a + b)[1..] == a[1..] + b;
      FilterAppend(a[1..], b, keep);
    }
  }

  lemma {:induction false} FilterKeepsAll<T(!new)>(s: seq<T>, keep: T -> bool)
    requires forall x :: x in s ==> keep(x)
    ensures Filter(s, keep) == s
  {
    if s != [] {
      assert forall x :: x in s[1..] ==> x in s;
      FilterKeepsAll(s[1..], keep);
    }
  }

  lemma {:induction false} FilterKeepsNone<T(!new)>(s: seq<T>, keep: T -> bool)
    requires forall x :: x in s ==> !keep(x)
    ensures Filter(s, keep) == []
  {
    if s != [] {
      assert forall x :: x in s[1..] ==> x in s;
      FilterKeepsNone(s[1..], keep);
    }
  }

  lemma FilterSingle<T(!new)>(x: T, keep: T -> bool)
    ensures Filter([x], keep) == if keep(x) then [x] else []
  {
    assert [x][1..] == [];
  }

  lemma MapAppend<T(!new), U(!new)>(a: seq<T>, b: seq<T>, f: T -> U)
    ensures Map(a + b, f) == Map(a, f) + Map(b, f)
  {
    assert forall i :: 0 <= i < |a + b| ==> Map(a + b, f)[i] == (Map(a, f) + Map(b, f))[i];
  }

  lemma FilterIfAppend<T(!new)>(a: seq<T>, b: seq<T>, on: bool, keep: T -> bool)
    ensures FilterIf(a + b, on, keep) == FilterIf(a, on, keep) + FilterIf(b, on, keep)
  {
    if on {
      FilterAppend(a, b, keep);
    }
  }

  /** Transforming and then filtering a concatenation works piece by piece. */
  lemma FilterMapAppend<T(!new), U(!new)>(a: seq<T>, b: seq<T>, f: T -> U, keep: U -> bool)
    ensures Filter(Map(a + b, f), keep) == Filter(Map(a, f), keep) + Filter(Map(b, f), keep)
  {
    MapAppend(a, b, f);
    FilterAppend(Map(a, f), Map(b, f), keep);
  }

  /** Filtering and then transforming decides about the first element on its own. */
  lemma MapFilterCons<T(!new), U(!new)>(x: T, rest: seq<T>, keep: T -> bool, f: T -> U)
    ensures Map(Filter([x] + rest, keep), f) == (if keep(x) then [f(x)] else []) + Map(Filter(rest, keep), f)
  {
    FilterAppend([x], rest, keep);
    FilterSingle(x, keep);
    MapAppend(Filter([x], keep), Filter(rest, keep), f);
  }

  /** Removing the element at `k` from a sequence removes one copy of it from its multiset. */
  lemma RemoveAt<T(!new)>(t: seq<T>, k: nat)
    requires k < |t|
    ensures multiset(t[..k] + t[k + 1..]) + multiset{t[k]} == multiset(t)
  {
    assert t == t[..k] + [t[k]] + t[k + 1..];
  }

  lemma {:induction false} MapSplitAt<T(!new), U(!new)>(t: seq<T>, k: nat, f: T -> U)
    requires k < |t|
    ensures Map(t, f) == Map(t[..k], f) + [f(t[k])] + Map(t[k + 1..], f)
  {
    assert t == [t[0]] + t[1..];
    if k == 0 {
      assert t[..0] == [] && t[1..] == t[k + 1..];
    } else {
      var rest := t[1..];
      MapSplitAt(rest, k - 1, f);
      assert rest[k..] == t[k + 1..] && rest[k - 1] == t[k];
      assert t[..k] == [t[0]] + rest[..k - 1];
    }
  }

  lemma MapRemoveAt<T(!new), U(!new)>(t: seq<T>, k: nat, f: T -> U)
    requires k < |t|
    ensures multiset(Map(t[..k] + t[k + 1..], f)) + multiset{f(t[k])} == multiset(Map(t, f))
  {
    var ma, mb := Map(t[..k], f), Map(t[k + 1..], f);
    MapSplitAt(t, k, f);
    MapAppend(t[..k], t[k + 1..], f);
    assert multiset(Map(t, f)) == multiset(ma) + multiset{f(t[k])} + multiset(mb);
    assert multiset(Map(t[..k] + t[k + 1..], f)) == multiset(ma) + multiset(mb);
  }

  lemma MultisetCancel<T>(a: multiset<T>, b: multiset<T>, x: T)
    requires a + multiset{x} == b + multiset{x}
    ensures a == b
  {
    forall y ensures a[y] == b[y] {
      assert (a + multiset{x})[y] == (b + multiset{x})[y];
    }
  }

  /** Mapping two orderings of the same elements gives two orderings of the same images. */
  lemma {:induction false} MapPermutation<T(!new), U(!new)>(s: seq<T>, t: seq<T>, f: T -> U)
    requires multiset(s) == multiset(t)
    ensures multiset(Map(s, f)) == multiset(Map(t, f))
    decreases |s|
  {
    if s == [] {
      assert |t| == |multiset(t)| == 0;
    } else {
      var x := s[0];
      assert x in multiset(t);
      var k :| 0 <= k < |t| && t[k] == x;
      var rest := t[..k] + t[k + 1..];
      RemoveAt(s, 0);
      RemoveAt(t, k);
      assert s[..0] + s[1..] == s[1..];
      MultisetCancel(multiset(s[1..]), multiset(rest), x);
      MapPermutation(s[1..], rest, f);
      MapRemoveAt(s, 0, f);
      MapRemoveAt(t, k, f);
    }
  }
}
