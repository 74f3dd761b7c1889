/**
  Sorting by a strict weak order.  The source calls the library sort; all that is used of
  it is that the result is a sorted rearrangement (`Sorts`).
 */
module Sorting {

  // "not less, the other way round" is a total preorder.
  ghost predicate WeakOrder<T(!new)>(less: (T, T) -> bool) {
    && (forall a: T, b: T :: !less(a, b) || !less(b, a))
    && (forall a: T, b: T, c: T :: !less(b, a) && !less(c, b) ==> !less(c, a))
  }

  ghost predicate Sorted<T>(less: (T, T) -> bool, s: seq<T>) {
    forall i, j :: 0 <= i < j < |s| ==> !less(s[j], s[i])
  }

  function Insert<T>(less: (T, T) -> bool, x: T, s: seq<T>): (r: seq<T>)
    ensures multiset(r) == multiset{x} + multiset(s)
  {
    if s == [] || !less(s[0], x) then [x] + s
    else
      assert s == [s[0]] + s[1..];
      [s[0]] + Insert(less, x, s[1..])
  }

  function Sort<T>(less: (T, T) -> bool, s: seq<T>): (r: seq<T>)
    ensures multiset(r) == multiset(s) && |r| == |s|
  {
    if s == [] then []
    else
      assert s == [s[0]] + s[1..];
      var r := Insert(less, s[0], Sort(less, s[1..]));
      assert |multiset(r)| == |multiset(s)|;
      r
  }

  lemma {:induction false} Inserted<T(!new)>(less: (T, T) -> bool, x: T, s: seq<T>)
    requires WeakOrder(less) && Sorted(less, s)
    ensures Sorted(less, Insert(less, x, s))
  {
    if s == [] {
    } else if !less(s[0], x) {
      FirstLeast(less, x, s);
    } else {
      var rest, r := s[1..], Insert(less, x, s[1..]);
      Inserted(less, x, rest);
      forall k | 0 <= k < |r| ensures !less(r[k], s[0]) {
        assert r[k] in multiset(r);
        assert r[k] == x || r[k] in rest;
      }
      Prepended(less, s[0], r);
    }
  }

  lemma FirstLeast<T(!new)>(less: (T, T) -> bool, x: T, s: seq<T>)
    requires WeakOrder(less) && Sorted(less, s) && s != [] && !less(s[0], x)
    ensures Sorted(less, [x] + s)
  {
    forall k | 0 <= k < |s| ensures !less(s[k], x) {
      if k > 0 { assert !less(s[k], s[0]); }
    }
  }

  lemma Prepended<T(!new)>(less: (T, T) -> bool, x: T, s: seq<T>)
    requires Sorted(less, s) && forall k :: 0 <= k < |s| ==> !less(s[k], x)
    ensures Sorted(less, [x] + s)
  {
  }

  lemma {:induction false} Sorts<T(!new)>(less: (T, T) -> bool, s: seq<T>)
    requires WeakOrder(less)
    ensures Sorted(less, Sort(less, s)) && multiset(Sort(less, s)) == multiset(s)
  {
    if s != [] {
      Sorts(less, s[1..]);
      Inserted(less, s[0], Sort(less, s[1..]));
    }
  }
}
