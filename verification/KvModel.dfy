/**
  The key/value model and its partition by key.  The checker looks at one key at a time;
  the locality theorem says that this decides linearizability against the whole map.
 */
module KvModel {
  import opened Linearizability
  import opened History
  import opened Sorting

  // op: 0 is get, 1 is put, 2 is append, anything else is append with return value.
  datatype KvValue = Input(op: nat, key: string, value: string) | Output(value: string)

  type KvOperation = Operation<KvValue>

  // One key's value: what an operation demands of it and what it leaves.
  function Step(state: string, input: KvValue, output: KvValue): (bool, string) {
    if !input.Input? || !output.Output? then (false, state)
    else if input.op == 0 then (output.value == state, state)
    else if input.op == 1 then (true, input.value)
    else if input.op == 2 then (true, state + input.value)
    else (output.value == state, state + input.value)
  }

  function PerKey(): Model<string, KvValue> {
    Model("", Step, (a, b) => a == b)
  }

  function KeyOf(v: KvValue): string {
    if v.Input? then v.key else ""
  }

  function Lookup(state: map<string, string>, key: string): string {
    if key in state then state[key] else ""
  }

  // The whole map, where an operation acts on the value of its key.
  function StepWhole(state: map<string, string>, input: KvValue, output: KvValue): (bool, map<string, string>) {
    var key := KeyOf(input);
    var (ok, value) := Step(Lookup(state, key), input, output);
    (ok, state[key := value])
  }

  function Whole(): Model<map<string, string>, KvValue> {
    Model(map[], StepWhole, (a, b) => a == b)
  }

  function Filter(ops: seq<KvOperation>, key: string): seq<KvOperation> {
    if ops == [] then []
    else
      var k := |ops| - 1;
      var before := Filter(ops[..k], key);
      if KeyOf(ops[k].input) == key then before + [ops[k]] else before
  }

  // ------------------------------------------------------- acceptance, key by key

  lemma OneMore<S(!new)>(m: Model<S, KvValue>, order: seq<KvOperation>, x: KvOperation)
    ensures StateAfter(m, order + [x]) == m.step(StateAfter(m, order), x.input, x.output).1
    ensures Accepted(m, order + [x]) <==> Accepted(m, order) && m.step(StateAfter(m, order), x.input, x.output).0
  {
    assert (order + [x])[..|order|] == order;
  }

  lemma Steps(state: string, whole: map<string, string>, x: KvOperation)
    ensures PerKey().step(state, x.input, x.output) == Step(state, x.input, x.output)
    ensures Whole().step(whole, x.input, x.output) == StepWhole(whole, x.input, x.output)
  {
  }

  lemma FilterOneMore(before: seq<KvOperation>, x: KvOperation, key: string)
    ensures Filter(before + [x], key) ==
      if KeyOf(x.input) == key then Filter(before, key) + [x] else Filter(before, key)
  {
    assert (before + [x])[..|before|] == before;
  }

  lemma {:induction false} WholeAfter(order: seq<KvOperation>, key: string)
    ensures Lookup(StateAfter(Whole(), order), key) == StateAfter(PerKey(), Filter(order, key))
    decreases |order|
  {
    if order != [] {
      var k := |order| - 1;
      var before, x := order[..k], order[k];
      hide StateAfter, Whole, PerKey, Step, Filter;
      WholeAfter(before, key);
      assert order == before + [x];
      OneMore(Whole(), before, x);
      OneMore(PerKey(), Filter(before, key), x);
      FilterOneMore(before, x, key);
      Steps(StateAfter(PerKey(), Filter(before, key)), StateAfter(Whole(), before), x);
    }
  }

  // One more operation is accepted by the map when it is by its key.
  lemma WholeAcceptedStep(before: seq<KvOperation>, x: KvOperation, key: string)
    ensures Accepted(PerKey(), Filter(before + [x], key)) <==>
      (&& Accepted(PerKey(), Filter(before, key))
       && (KeyOf(x.input) == key ==> Whole().step(StateAfter(Whole(), before), x.input, x.output).0))
  {
    hide StateAfter, Accepted, Whole, PerKey, Step, Filter;
    WholeAfter(before, key);
    FilterOneMore(before, x, key);
    OneMore(PerKey(), Filter(before, key), x);
    Steps(StateAfter(PerKey(), Filter(before, key)), StateAfter(Whole(), before), x);
  }

  ghost predicate EachAccepted(order: seq<KvOperation>) {
    forall key :: Accepted(PerKey(), Filter(order, key))
  }

  lemma {:induction false} WholeAccepted(order: seq<KvOperation>)
    ensures Accepted(Whole(), order) <==> EachAccepted(order)
    decreases |order|
  {
    if order != [] {
      var k := |order| - 1;
      var before, x := order[..k], order[k];
      WholeAccepted(before);
      assert order == before + [x];
      OneMore(Whole(), before, x);
      hide StateAfter, Accepted, Whole, PerKey, Filter;
      if Accepted(Whole(), order) {
        forall key ensures Accepted(PerKey(), Filter(order, key)) { WholeAcceptedStep(before, x, key); }
      }
      if EachAccepted(order) {
        forall key ensures Accepted(PerKey(), Filter(before, key)) {
          assert Accepted(PerKey(), Filter(order, key));
          WholeAcceptedStep(before, x, key);
        }
        assert Accepted(PerKey(), Filter(order, KeyOf(x.input)));
        WholeAcceptedStep(before, x, KeyOf(x.input));
      }
    }
  }

  // --------------------------------------------------------------- one key of many

  lemma {:induction false} FilterCount(ops: seq<KvOperation>, key: string, x: KvOperation)
    ensures multiset(Filter(ops, key))[x] == if KeyOf(x.input) == key then multiset(ops)[x] else 0
    decreases |ops|
  {
    if ops != [] {
      var k := |ops| - 1;
      FilterCount(ops[..k], key, x);
      assert ops == ops[..k] + [ops[k]];
    }
  }

  lemma FilterIn(ops: seq<KvOperation>, key: string, x: KvOperation)
    ensures x in Filter(ops, key) <==> x in ops && KeyOf(x.input) == key
  {
    FilterCount(ops, key, x);
    assert x in Filter(ops, key) <==> x in multiset(Filter(ops, key));
    assert x in ops <==> x in multiset(ops);
  }

  lemma FilterSame(ops: seq<KvOperation>, order: seq<KvOperation>, key: string)
    requires multiset(ops) == multiset(order)
    ensures multiset(Filter(ops, key)) == multiset(Filter(order, key))
  {
    forall x ensures multiset(Filter(ops, key))[x] == multiset(Filter(order, key))[x] {
      FilterCount(ops, key, x);
      FilterCount(order, key, x);
    }
  }

  lemma {:induction false} FilterRealTime(order: seq<KvOperation>, key: string)
    requires RealTime(order)
    ensures RealTime(Filter(order, key))
    decreases |order|
  {
    if order != [] {
      var k := |order| - 1;
      FilterRealTime(order[..k], key);
      var kept := Filter(order[..k], key);
      forall i | 0 <= i < |kept| ensures kept[i].call <= order[k].ret {
        FilterIn(order[..k], key, kept[i]);
        var j :| 0 <= j < k && order[..k][j] == kept[i];
        assert order[j] == kept[i];
      }
    }
  }

  // ------------------------------------------------------------ linearization points

  datatype Stamp = Stamp(op: KvOperation, at: int)

  // Each operation has a moment between its call and its return, in order.
  ghost predicate Stamped(t: seq<Stamp>) {
    t == [] ||
    (var k := |t| - 1;
     && Stamped(t[..k])
     && t[k].op.call <= t[k].at <= t[k].op.ret
     && (k > 0 ==> t[k - 1].at <= t[k].at))
  }

  lemma {:induction false} StampedInOrder(t: seq<Stamp>, i: nat, j: nat)
    requires Stamped(t) && i <= j < |t|
    ensures t[i].op.call <= t[i].at <= t[j].at <= t[j].op.ret
    decreases |t|
  {
    var k := |t| - 1;
    if j < k {
      StampedInOrder(t[..k], i, j);
    } else if i < k {
      StampedInOrder(t[..k], i, k - 1);
    }
  }

  lemma StampedLast(t: seq<Stamp>, x: Stamp)
    requires Stamped(t) && x.op.call <= x.at <= x.op.ret && (t != [] ==> t[|t| - 1].at <= x.at)
    ensures Stamped(t + [x])
  {
    assert (t + [x])[..|t|] == t;
  }

  ghost function Bare(t: seq<Stamp>): (r: seq<KvOperation>)
    ensures |r| == |t| && forall i :: 0 <= i < |t| ==> r[i] == t[i].op
  {
    seq(|t|, i requires 0 <= i < |t| => t[i].op)
  }

  ghost function LastCall(order: seq<KvOperation>): int
    requires order != []
  {
    var k := |order| - 1;
    if k == 0 || LastCall(order[..k]) <= order[k].call then order[k].call else LastCall(order[..k])
  }

  lemma {:induction false} LastCallBelow(order: seq<KvOperation>, bound: int)
    requires order != [] && forall i :: 0 <= i < |order| ==> order[i].call <= bound
    ensures LastCall(order) <= bound
    decreases |order|
  {
    if |order| > 1 { LastCallBelow(order[..|order| - 1], bound); }
  }

  ghost function Stamps(order: seq<KvOperation>): seq<Stamp> {
    if order == [] then []
    else var k := |order| - 1; Stamps(order[..k]) + [Stamp(order[k], LastCall(order))]
  }

  lemma LastCallGrows(order: seq<KvOperation>)
    requires order != []
    ensures var k := |order| - 1;
      LastCall(order) >= order[k].call && (k > 0 ==> LastCall(order) >= LastCall(order[..k]))
  {
  }

  lemma StampsLast(order: seq<KvOperation>)
    requires order != []
    ensures var k := |order| - 1; Stamps(order) == Stamps(order[..k]) + [Stamp(order[k], LastCall(order))]
  {
  }

  lemma RealTimeSoFar(order: seq<KvOperation>)
    requires RealTime(order) && Timed(order) && order != []
    ensures var k := |order| - 1;
      RealTime(order[..k]) && Timed(order[..k]) && LastCall(order) <= order[k].ret
  {
    LastCallBelow(order, order[|order| - 1].ret);
  }

  lemma {:induction false} StampsBare(order: seq<KvOperation>)
    ensures Bare(Stamps(order)) == order
    decreases |order|
  {
    if order != [] {
      var k := |order| - 1;
      StampsBare(order[..k]);
      assert order == order[..k] + [order[k]];
      BareMore(Stamps(order[..k]), Stamp(order[k], LastCall(order)));
    }
  }

  lemma BareMore(t: seq<Stamp>, x: Stamp)
    ensures Bare(t + [x]) == Bare(t) + [x.op]
  {
  }

  lemma {:induction false} StampsExist(order: seq<KvOperation>)
    requires RealTime(order) && Timed(order)
    ensures Stamped(Stamps(order)) && Bare(Stamps(order)) == order
    decreases |order|
  {
    StampsBare(order);
    if order != [] {
      hide LastCall, Stamps, Stamped, RealTime, Timed, Bare;
      RealTimeSoFar(order);
      var k := |order| - 1;
      var before := order[..k];
      StampsExist(before);
      LastCallGrows(order);
      StampsLast(order);
      if k > 0 { StampsLast(before); }
      StampedLast(Stamps(before), Stamp(order[k], LastCall(order)));
    }
  }

  lemma StampedRealTime(t: seq<Stamp>)
    requires Stamped(t)
    ensures RealTime(Bare(t)) && Timed(Bare(t))
  {
    forall i, j | 0 <= i <= j < |t| ensures t[i].op.call <= t[j].op.ret { StampedInOrder(t, i, j); }
  }

  // A real-time order is one that has linearization points.
  lemma RealTimeIffPoints(order: seq<KvOperation>)
    ensures RealTime(order) && Timed(order) <==> exists t :: Stamped(t) && Bare(t) == order
  {
    if RealTime(order) && Timed(order) { StampsExist(order); }
    if t :| Stamped(t) && Bare(t) == order { StampedRealTime(t); }
  }

  // ------------------------------------------------------------------- merging

  ghost function Merge(a: seq<Stamp>, b: seq<Stamp>): seq<Stamp>
    decreases |a| + |b|
  {
    if a == [] then b
    else if b == [] then a
    else
      var i, j := |a| - 1, |b| - 1;
      if a[i].at >= b[j].at then Merge(a[..i], b) + [a[i]] else Merge(a, b[..j]) + [b[j]]
  }

  lemma {:induction false} MergeIn(a: seq<Stamp>, b: seq<Stamp>, x: Stamp)
    requires x in Merge(a, b)
    ensures x in a || x in b
    decreases |a| + |b|
  {
    if a != [] && b != [] {
      var i, j := |a| - 1, |b| - 1;
      if a[i].at >= b[j].at {
        if x != a[i] { MergeIn(a[..i], b, x); }
      } else {
        if x != b[j] { MergeIn(a, b[..j], x); }
      }
    }
  }

  lemma {:induction false} MergeStamped(a: seq<Stamp>, b: seq<Stamp>)
    requires Stamped(a) && Stamped(b)
    ensures Stamped(Merge(a, b))
    decreases |a| + |b|
  {
    if a != [] && b != [] {
      var i, j := |a| - 1, |b| - 1;
      if a[i].at >= b[j].at {
        MergeStamped(a[..i], b);
        MergeLast(a[..i], b);
        StampedLast(Merge(a[..i], b), a[i]);
      } else {
        MergeStamped(a, b[..j]);
        MergeLast(a, b[..j]);
        StampedLast(Merge(a, b[..j]), b[j]);
      }
    }
  }

  lemma MergeLast(a: seq<Stamp>, b: seq<Stamp>)
    ensures var t := Merge(a, b);
      t != [] ==> (a != [] && t[|t| - 1] == a[|a| - 1]) || (b != [] && t[|t| - 1] == b[|b| - 1])
  {
  }

  ghost predicate Keyed(t: seq<Stamp>, key: string) {
    forall i :: 0 <= i < |t| ==> KeyOf(t[i].op.input) == key
  }

  lemma BareLast(t: seq<Stamp>, key: string)
    requires t != []
    ensures var k := |t| - 1;
      var before := Filter(Bare(t[..k]), key);
      Filter(Bare(t), key) == if KeyOf(t[k].op.input) == key then before + [t[k].op] else before
  {
    assert Bare(t)[..|t| - 1] == Bare(t[..|t| - 1]);
  }

  lemma {:induction false} KeyedFilter(t: seq<Stamp>, own: string, key: string)
    requires Keyed(t, own)
    ensures Filter(Bare(t), key) == if key == own then Bare(t) else []
    decreases |t|
  {
    if t == [] {
      EmptyFilter(key);
    } else {
      hide Filter;
      var k := |t| - 1;
      KeyedFilter(t[..k], own, key);
      BareLast(t, key);
      assert Bare(t) == Bare(t[..k]) + [t[k].op];
    }
  }

  // Merging in the operations of a new key leaves the other keys as they were.
  lemma {:induction false} MergeFilter(a: seq<Stamp>, b: seq<Stamp>, own: string, key: string)
    requires Keyed(b, own) && (key == own ==> forall i :: 0 <= i < |a| ==> KeyOf(a[i].op.input) != own)
    ensures Filter(Bare(Merge(a, b)), key) == if key == own then Bare(b) else Filter(Bare(a), key)
    decreases |a| + |b|
  {
    hide Filter, Merge;
    MergeIs(a, b);
    if a == [] {
      KeyedFilter(b, own, key);
      EmptyFilter(key);
    } else if b == [] {
      if key == own { NoneFilter(a, key); }
    } else {
      var i, j := |a| - 1, |b| - 1;
      if a[i].at >= b[j].at {
        MergeFilter(a[..i], b, own, key);
        BareLast(Merge(a, b), key);
        BareLast(a, key);
      } else {
        MergeFilter(a, b[..j], own, key);
        BareLast(Merge(a, b), key);
        assert Bare(b) == Bare(b[..j]) + [b[j].op];
      }
    }
  }

  lemma MergeIs(a: seq<Stamp>, b: seq<Stamp>)
    ensures a == [] ==> Merge(a, b) == b
    ensures b == [] ==> Merge(a, b) == a
    ensures a != [] && b != [] ==> var i, j := |a| - 1, |b| - 1;
      Merge(a, b) == if a[i].at >= b[j].at then Merge(a[..i], b) + [a[i]] else Merge(a, b[..j]) + [b[j]]
  {
  }

  lemma EmptyFilter(key: string)
    ensures Filter(Bare([]), key) == []
  {
  }

  lemma {:induction false} NoneFilter(t: seq<Stamp>, key: string)
    requires forall i :: 0 <= i < |t| ==> KeyOf(t[i].op.input) != key
    ensures Filter(Bare(t), key) == []
    decreases |t|
  {
    if t != [] {
      NoneFilter(t[..|t| - 1], key);
      BareLast(t, key);
    }
  }

  // ------------------------------------------------------------------- locality

  ghost predicate Within(t: seq<Stamp>, keys: seq<string>) {
    forall i :: 0 <= i < |t| ==> KeyOf(t[i].op.input) in keys
  }

  ghost predicate Merged(ops: seq<KvOperation>, keys: seq<string>, t: seq<Stamp>) {
    forall i :: 0 <= i < |keys| ==> Legal(PerKey(), Filter(ops, keys[i]), Filter(Bare(t), keys[i]))
  }

  // Linearizable keys have one common order, with its points.
  lemma {:induction false} MergeKeys(ops: seq<KvOperation>, keys: seq<string>) returns (t: seq<Stamp>)
    requires Timed(ops) && Spread(keys)
    requires forall i :: 0 <= i < |keys| ==> Linearizable(PerKey(), Filter(ops, keys[i]))
    ensures Stamped(t) && Within(t, keys) && Merged(ops, keys, t)
    decreases |keys|
  {
    if keys == [] {
      t := [];
    } else {
      hide Filter, Legal, PerKey, Merge, Timed, Linearizable, Within, Keyed, Stamped, Merged;
      var k := |keys| - 1;
      var a := MergeKeys(ops, keys[..k]);
      var b := StampKey(ops, keys[k]);
      t := Merge(a, b);
      MergeStamped(a, b);
      MergeOneKey(ops, keys, a, b);
    }
  }

  lemma MergeOneKey(ops: seq<KvOperation>, keys: seq<string>, a: seq<Stamp>, b: seq<Stamp>)
    requires Spread(keys) && keys != []
    requires Within(a, keys[..|keys| - 1]) && Merged(ops, keys[..|keys| - 1], a)
    requires Keyed(b, keys[|keys| - 1]) && Legal(PerKey(), Filter(ops, keys[|keys| - 1]), Bare(b))
    ensures Within(Merge(a, b), keys) && Merged(ops, keys, Merge(a, b))
  {
    hide Filter, Legal, PerKey, Merge;
    var k, t := |keys| - 1, Merge(a, b);
    forall i | 0 <= i < |t| ensures KeyOf(t[i].op.input) in keys {
      MergeIn(a, b, t[i]);
    }
    forall i | 0 <= i < |a| ensures KeyOf(a[i].op.input) != keys[k] {
      var j :| 0 <= j < k && keys[..k][j] == KeyOf(a[i].op.input);
      assert keys[j] != keys[k];
    }
    forall i | 0 <= i < |keys| ensures Legal(PerKey(), Filter(ops, keys[i]), Filter(Bare(t), keys[i])) {
      MergeFilter(a, b, keys[k], keys[i]);
      if i < k { assert keys[..k][i] == keys[i]; }
    }
  }

  lemma StampKey(ops: seq<KvOperation>, key: string) returns (b: seq<Stamp>)
    requires Timed(ops) && Linearizable(PerKey(), Filter(ops, key))
    ensures Stamped(b) && Keyed(b, key) && Legal(PerKey(), Filter(ops, key), Bare(b))
  {
    hide Filter, PerKey, Accepted;
    var order: seq<KvOperation> :| Legal(PerKey(), Filter(ops, key), order);
    forall i | 0 <= i < |order| ensures order[i].call <= order[i].ret && KeyOf(order[i].input) == key {
      assert order[i] in multiset(order);
      assert order[i] in multiset(Filter(ops, key));
      FilterIn(ops, key, order[i]);
      var j :| 0 <= j < |ops| && ops[j] == order[i];
    }
    StampsExist(order);
    b := Stamps(order);
    assert forall i :: 0 <= i < |b| ==> b[i].op == Bare(b)[i];
  }

  // Locality: a history is linearizable against the whole map exactly when each key's part
  // of it is linearizable against that key alone.
  lemma Locality(ops: seq<KvOperation>, keys: seq<string>)
    requires Timed(ops) && Spread(keys) && forall i :: 0 <= i < |ops| ==> KeyOf(ops[i].input) in keys
    ensures Linearizable(Whole(), ops) <==>
      forall i :: 0 <= i < |keys| ==> Linearizable(PerKey(), Filter(ops, keys[i]))
  {
    hide Timed, Accepted, Filter, Whole, PerKey, RealTime;
    if order :| Legal(Whole(), ops, order) {
      WholeAccepted(order);
      forall i | 0 <= i < |keys| ensures Linearizable(PerKey(), Filter(ops, keys[i])) {
        FilterSame(ops, order, keys[i]);
        FilterRealTime(order, keys[i]);
        assert Legal(PerKey(), Filter(ops, keys[i]), Filter(order, keys[i]));
      }
    }
    if forall i :: 0 <= i < |keys| ==> Linearizable(PerKey(), Filter(ops, keys[i])) {
      var t := MergeKeys(ops, keys);
      MergedLegal(ops, keys, t);
    }
  }

  lemma MergedLegal(ops: seq<KvOperation>, keys: seq<string>, t: seq<Stamp>)
    requires Stamped(t) && Within(t, keys) && forall i :: 0 <= i < |ops| ==> KeyOf(ops[i].input) in keys
    requires Merged(ops, keys, t)
    ensures Legal(Whole(), ops, Bare(t))
  {
    hide Accepted, Filter, Whole, PerKey, RealTime;
    StampedRealTime(t);
    hide Stamped;
    var order := Bare(t);
    forall x ensures multiset(order)[x] == multiset(ops)[x] {
      var key := KeyOf(x.input);
      FilterCount(order, key, x);
      FilterCount(ops, key, x);
      if key in keys {
        var i :| 0 <= i < |keys| && keys[i] == key;
        assert Legal(PerKey(), Filter(ops, keys[i]), Filter(order, keys[i]));
      } else {
        assert x !in order && x !in ops;
      }
    }
    forall key ensures Accepted(PerKey(), Filter(order, key)) {
      if key in keys {
        var i :| 0 <= i < |keys| && keys[i] == key;
        assert Legal(PerKey(), Filter(ops, keys[i]), Filter(order, keys[i]));
      } else {
        NoneFilter(t, key);
        NothingAccepted();
      }
    }
    WholeAccepted(order);
  }

  lemma NothingAccepted()
    ensures Accepted(PerKey(), [])
  {
  }
}
