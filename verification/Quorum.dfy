/**
  Majorities of the servers 0, 1, ..., size-1, and the index the leader commits at.
 */
module Quorum {
  import opened RaftNode
  import opened Sorting

  function Everyone(size: nat): (r: set<nat>)
    ensures forall v: nat :: v in r <==> v < size
    ensures |r| == size
  {
    if size == 0 then {} else Everyone(size - 1) + {size - 1}
  }

  ghost predicate Majority(s: set<nat>, size: nat) {
    |s| > size / 2
  }

  lemma SubsetSize<T>(a: set<T>, b: set<T>)
    requires a <= b
    ensures |a| <= |b|
  {
    assert b == a + (b - a);
  }

  // Any two majorities share a server.
  lemma Overlap(a: set<nat>, b: set<nat>, size: nat) returns (x: nat)
    requires forall v: nat :: v in a || v in b ==> v < size
    requires Majority(a, size) && Majority(b, size)
    ensures x in a && x in b
  {
    if a * b == {} {
      assert |a + b| == |a| + |b|;
      SubsetSize(a + b, Everyone(size));
      assert false;
    }
    x :| x in a * b;
  }

  // ------------------------------------------------------ the commit index

  // The servers that have reached index x.
  ghost function Reached(matchIndex: seq<int>, x: int): set<nat> {
    set q: nat | q < |matchIndex| && matchIndex[q] >= x
  }

  function CountFrom(s: seq<int>, x: int): (r: nat)
    ensures r <= |s|
  {
    if s == [] then 0 else (if s[0] >= x then 1 else 0) + CountFrom(s[1..], x)
  }

  ghost predicate Ascending(s: seq<int>) {
    forall i, j :: 0 <= i <= j < |s| ==> s[i] <= s[j]
  }

  lemma {:induction false} InsertKeeps(y: int, s: seq<int>, x: int)
    ensures CountFrom(Insert(IntLess, y, s), x) == CountFrom(s, x) + (if y >= x then 1 else 0)
  {
    if s == [] || y <= s[0] {
      assert ([y] + s)[1..] == s;
    } else {
      InsertKeeps(y, s[1..], x);
      var r := Insert(IntLess, y, s[1..]);
      assert ([s[0]] + r)[1..] == r;
    }
  }

  lemma {:induction false} SortKeeps(s: seq<int>, x: int)
    ensures Ascending(SortInts(s))
    ensures CountFrom(SortInts(s), x) == CountFrom(s, x)
  {
    Sorts(IntLess, s);
    SortCount(s, x);
    hide Sort;
    var r := SortInts(s);
    forall i, j | 0 <= i <= j < |r| ensures r[i] <= r[j] {
      if i < j { assert !IntLess(r[j], r[i]); }
    }
  }

  lemma {:induction false} SortCount(s: seq<int>, x: int)
    ensures CountFrom(Sort(IntLess, s), x) == CountFrom(s, x)
  {
    if s != [] {
      SortCount(s[1..], x);
      InsertKeeps(s[0], Sort(IntLess, s[1..]), x);
    }
  }

  lemma {:induction false} CountIsReached(s: seq<int>, x: int)
    ensures CountFrom(s, x) == |Reached(s, x)|
  {
    if s == [] {
      assert Reached(s, x) == {};
    } else {
      var n := |s| - 1;
      CountIsReached(s[..n], x);
      CountAppend(s[..n], s[n], x);
      assert s == s[..n] + [s[n]];
      assert Reached(s, x) == Reached(s[..n], x) + (if s[n] >= x then {n} else {});
    }
  }

  lemma {:induction false} CountAppend(s: seq<int>, y: int, x: int)
    ensures CountFrom(s + [y], x) == CountFrom(s, x) + (if y >= x then 1 else 0)
  {
    if s != [] {
      assert (s + [y])[1..] == s[1..] + [y];
      CountAppend(s[1..], y, x);
    }
  }

  // In an ascending sequence, what is >= x is a suffix.
  lemma {:induction false} CountSuffix(s: seq<int>, k: nat, x: int)
    requires Ascending(s) && k <= |s|
    ensures k < |s| && s[k] >= x ==> CountFrom(s, x) >= |s| - k
    ensures k < |s| && s[k] < x ==> CountFrom(s, x) < |s| - k
  {
    if k < |s| {
      CountSuffix(s[1..], if k == 0 then 0 else k - 1, x);
    }
  }

  // sortMatchIndex[n-(n/2+1)] is the greatest index a majority has reached.
  lemma MajorityIndexIsGreatest(m: seq<int>, higher: int)
    requires |m| > 0
    ensures Majority(Reached(m, MajorityIndex(m)), |m|)
    ensures higher > MajorityIndex(m) ==> !Majority(Reached(m, higher), |m|)
  {
    var n := |m|;
    var s, k := SortInts(m), n - (n / 2 + 1);
    SortKeeps(m, s[k]);
    CountIsReached(m, s[k]);
    CountSuffix(s, k, s[k]);
    if higher > s[k] {
      SortKeeps(m, higher);
      CountIsReached(m, higher);
      CountSuffix(s, k, higher);
    }
  }
}
