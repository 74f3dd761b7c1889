/**
  Checking a key/value history: partition it by key, check each part, and answer for the
  whole map.
 */
module KvCheck {
  import opened Linearizability
  import opened Search
  import opened History
  import opened Sorting
  import opened KvModel
  import opened KvMeaning

  // The order of sort.Strings.
  predicate StringLess(a: string, b: string) {
    if b == [] then false
    else if a == [] then true
    else if a[0] != b[0] then a[0] < b[0]
    else StringLess(a[1..], b[1..])
  }

  lemma {:induction false} StringLessWeak(a: string, b: string, c: string)
    ensures !StringLess(a, b) || !StringLess(b, a)
    ensures !StringLess(b, a) && !StringLess(c, b) ==> !StringLess(c, a)
    decreases |a|
  {
    if a != [] && b != [] {
      StringLessWeak(a[1..], b[1..], if c == [] then [] else c[1..]);
    }
  }

  // a comes first at the first place where they differ, or ends there.
  lemma {:induction false} StringLessMeans(a: string, b: string)
    ensures StringLess(a, b) <==> exists k: nat :: FirstBelow(a, b, k)
    decreases |a|
  {
    if a != [] && b != [] && a[0] == b[0] {
      StringLessMeans(a[1..], b[1..]);
      if k: nat :| FirstBelow(a, b, k) {
        assert k > 0 && FirstBelow(a[1..], b[1..], k - 1) by {
          assert a[1..][..k - 1] == a[..k][1..] && b[1..][..k - 1] == b[..k][1..];
        }
      }
      if k: nat :| FirstBelow(a[1..], b[1..], k) {
        assert a[..k + 1] == [a[0]] + a[1..][..k] && b[..k + 1] == [b[0]] + b[1..][..k];
        assert FirstBelow(a, b, k + 1);
      }
    } else if StringLess(a, b) {
      assert FirstBelow(a, b, 0);
    }
  }

  ghost predicate FirstBelow(a: string, b: string, k: nat) {
    k <= |a| && k < |b| && a[..k] == b[..k] && (k == |a| || a[k] < b[k])
  }

  lemma StringOrder()
    ensures WeakOrder(StringLess)
  {
    forall a: string, b: string ensures !StringLess(a, b) || !StringLess(b, a) { StringLessWeak(a, b, []); }
    forall a: string, b: string, c: string | !StringLess(b, a) && !StringLess(c, b) ensures !StringLess(c, a) {
      StringLessWeak(a, b, c);
    }
  }

  ghost predicate Grouped(history: seq<KvOperation>, m: map<string, seq<KvOperation>>) {
    && (forall key :: key in m <==> Filter(history, key) != [])
    && (forall key :: key in m ==> m[key] == Filter(history, key))
  }

  lemma GroupedMore(history: seq<KvOperation>, x: KvOperation, m: map<string, seq<KvOperation>>)
    requires Grouped(history, m)
    ensures var key := KeyOf(x.input);
      Grouped(history + [x], m[key := (if key in m then m[key] else []) + [x]])
  {
    hide Filter;
    var own := KeyOf(x.input);
    var m' := m[own := (if own in m then m[own] else []) + [x]];
    forall key
      ensures key in m' <==> Filter(history + [x], key) != []
      ensures key in m' ==> m'[key] == Filter(history + [x], key)
    {
      FilterOneMore(history, x, key);
    }
  }

  method Group(history: seq<KvOperation>) returns (m: map<string, seq<KvOperation>>)
    requires Typed(history)
    ensures Grouped(history, m)
  {
    m := map[];
    for i := 0 to |history|
      invariant Grouped(history[..i], m)
    {
      var v := history[i];
      var key := v.input.key;
      GroupedMore(history[..i], v, m);
      assert history[..i + 1] == history[..i] + [v];
      hide Grouped;
      m := m[key := (if key in m then m[key] else []) + [v]];
    }
    assert history[..|history|] == history;
  }

  // One part per key that occurs, in the order of the keys, each with its operations in the
  // order of the history.
  method Partition(history: seq<KvOperation>) returns (parts: seq<seq<KvOperation>>, keys: seq<string>)
    requires Typed(history)
    ensures |parts| == |keys| && forall i :: 0 <= i < |keys| ==> parts[i] == Filter(history, keys[i])
    ensures Sorted(StringLess, keys) && Spread(keys)
    ensures forall key :: key in keys <==> Filter(history, key) != []
  {
    hide Filter, WeakOrder, Sorted, Typed, Spread, Sort;
    var m := Group(history);
    var unsorted := KeysOf(m.Keys);
    StringOrder();
    Sorts(StringLess, unsorted);
    keys := Sort(StringLess, unsorted);
    Rearrange(unsorted, keys);
    parts := [];
    for i := 0 to |keys|
      invariant |parts| == i && forall j :: 0 <= j < i ==> parts[j] == Filter(history, keys[j])
    {
      parts := parts + [m[keys[i]]];
    }
  }

  // A map's keys, in some order.
  method KeysOf(all: set<string>) returns (keys: seq<string>)
    ensures Spread(keys) && forall key :: key in keys <==> key in all
  {
    keys := [];
    var rest := all;
    while rest != {}
      invariant rest <= all && Spread(keys)
      invariant forall key :: key in keys <==> key in all - rest
    {
      var k :| k in rest;
      assert k !in keys;
      keys := keys + [k];
      rest := rest - {k};
    }
  }

  lemma Rearrange(s: seq<string>, t: seq<string>)
    requires multiset(s) == multiset(t) && Spread(s)
    ensures Spread(t) && forall key :: key in t <==> key in s
  {
    forall key ensures key in t <==> key in s {
      assert key in t <==> key in multiset(t);
      assert key in s <==> key in multiset(s);
    }
    forall i, j | 0 <= i < j < |t| ensures t[i] != t[j] {
      if t[i] == t[j] {
        Twice(t, i, j);
        AtMostOnce(s, t[i]);
        assert false;
      }
    }
  }

  lemma FilterTimed(history: seq<KvOperation>, key: string)
    requires Timed(history)
    ensures Timed(Filter(history, key))
  {
    hide Filter;
    var part := Filter(history, key);
    forall i | 0 <= i < |part| ensures part[i].call <= part[i].ret {
      FilterIn(history, key, part[i]);
      var j :| 0 <= j < |history| && history[j] == part[i];
    }
  }

  lemma PerKeyCongruent()
    ensures Congruent(PerKey()) && Reflexive(PerKey())
  {
  }

  // Without a timeout, the verdict on a history is its linearizability against the whole map.
  method CheckOperations(history: seq<KvOperation>) returns (ok: bool)
    requires Typed(history) && Timed(history) && history != []
    ensures ok <==> History.Linearizable(Whole(), history)
    ensures ok <==> exists order :: Explains(history, order)
  {
    var parts, keys := Partition(history);
    PerKeyCongruent();
    WholeMeans(history);
    hide Filter, Explains, Congruent, Linearizable, Whole, PerKey, Typed, Timed;
    forall i | 0 <= i < |parts| ensures Timed(parts[i]) {
      FilterTimed(history, keys[i]);
    }
    ok := CheckParts(PerKey(), parts);
    forall j | 0 <= j < |history| ensures KeyOf(history[j].input) in keys {
      FilterIn(history, KeyOf(history[j].input), history[j]);
    }
    Locality(history, keys);
  }
}
