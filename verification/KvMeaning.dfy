/**
  The key/value model said without a transition function: a key holds the value of its last
  put with everything appended since, and a history is linearizable when one order of it,
  true to real time, tells every reader what its key holds.
 */
module KvMeaning {
  import opened Linearizability
  import opened History
  import opened KvModel

  // ------------------------------------------------------------------ one key

  // The source asserts these types as it goes.
  ghost predicate Typed(history: seq<KvOperation>) {
    forall i :: 0 <= i < |history| ==> history[i].input.Input? && history[i].output.Output?
  }

  // The last put, or -1.
  ghost predicate LastPut(order: seq<KvOperation>, p: int)
    requires Typed(order)
  {
    && -1 <= p < |order| && (p >= 0 ==> order[p].input.op == 1)
    && forall i :: p < i < |order| ==> order[i].input.op != 1
  }

  // The values of all appends, with and without return value, in order.
  function Appends(order: seq<KvOperation>): string {
    if order == [] then ""
    else (if order[0].input.Input? && order[0].input.op >= 2 then order[0].input.value else "") + Appends(order[1..])
  }

  // The value of the last put, or nothing, with everything appended since.
  ghost predicate Holds(order: seq<KvOperation>, value: string)
    requires Typed(order)
  {
    exists p :: LastPut(order, p) && value == Since(order, p)
  }

  function Since(order: seq<KvOperation>, p: int): string
    requires -1 <= p < |order|
  {
    (if p >= 0 && order[p].input.Input? then order[p].input.value else "") + Appends(order[p + 1..])
  }

  // A get, or an append with return value.
  predicate Reads(x: KvOperation) {
    x.input.Input? && (x.input.op == 0 || x.input.op > 2)
  }

  // Whoever reads is told what the operations before it leave.
  ghost predicate ReadsRight(order: seq<KvOperation>)
    requires Typed(order)
  {
    forall i :: 0 <= i < |order| && Reads(order[i]) ==> Holds(order[..i], order[i].output.value)
  }

  lemma {:induction false} AppendsMore(order: seq<KvOperation>, x: KvOperation)
    ensures Appends(order + [x]) == Appends(order) + if x.input.Input? && x.input.op >= 2 then x.input.value else ""
  {
    if order != [] {
      AppendsMore(order[1..], x);
      assert (order + [x])[1..] == order[1..] + [x];
    }
  }

  lemma OnePut(order: seq<KvOperation>, p: int, q: int)
    requires Typed(order) && LastPut(order, p) && LastPut(order, q)
    ensures p == q
  {
  }

  // The state of one key after any operations on it, and no other value.
  lemma ValueAfter(order: seq<KvOperation>)
    requires Typed(order)
    ensures forall value :: Holds(order, value) <==> value == StateAfter(PerKey(), order)
  {
    hide StateAfter, PerKey, Since;
    var p := ValueHolds(order);
    forall value | Holds(order, value) ensures value == StateAfter(PerKey(), order) {
      var q :| LastPut(order, q) && value == Since(order, q);
      OnePut(order, p, q);
    }
  }

  lemma {:induction false} ValueHolds(order: seq<KvOperation>) returns (p: int)
    requires Typed(order)
    ensures LastPut(order, p) && -1 <= p < |order| && StateAfter(PerKey(), order) == Since(order, p)
    decreases |order|
  {
    if order == [] {
      p := -1;
    } else {
      var k := |order| - 1;
      var before, x := order[..k], order[k];
      hide StateAfter, PerKey, Step, Since, Appends;
      var q := ValueHolds(before);
      p := if x.input.op == 1 then k else q;
      assert order == before + [x];
      StateMore(before, x);
      SinceMore(before, q, x);
      assert LastPut(order, p);
    }
  }

  lemma SinceMore(before: seq<KvOperation>, q: int, x: KvOperation)
    requires -1 <= q < |before| && x.input.Input?
    ensures x.input.op == 1 ==> Since(before + [x], |before|) == x.input.value
    ensures x.input.op == 0 ==> Since(before + [x], q) == Since(before, q)
    ensures x.input.op >= 2 ==> Since(before + [x], q) == Since(before, q) + x.input.value
  {
    assert (before + [x])[q + 1..] == before[q + 1..] + [x];
    AppendsMore(before[q + 1..], x);
    assert (before + [x])[|before| + 1..] == [];
  }

  lemma StateMore(before: seq<KvOperation>, x: KvOperation)
    requires x.input.Input? && x.output.Output?
    ensures var s := StateAfter(PerKey(), before);
      StateAfter(PerKey(), before + [x]) ==
      if x.input.op == 0 then s else if x.input.op == 1 then x.input.value else s + x.input.value
  {
    OneMore(PerKey(), before, x);
    Steps(StateAfter(PerKey(), before), map[], x);
    hide StateAfter, PerKey;
  }

  // An order of one key's operations is accepted exactly when every read is right.
  lemma {:induction false} AcceptedMeans(order: seq<KvOperation>)
    requires Typed(order)
    ensures Accepted(PerKey(), order) <==> ReadsRight(order)
    decreases |order|
  {
    if order != [] {
      var k := |order| - 1;
      var before, x := order[..k], order[k];
      AcceptedMeans(before);
      ValueAfter(before);
      assert order == before + [x];
      AcceptsMore(before, x);
      hide Accepted, StateAfter, PerKey, Holds;
      forall i | 0 <= i < k ensures before[..i] == order[..i] && before[i] == order[i] {}
    }
  }

  lemma AcceptsMore(before: seq<KvOperation>, x: KvOperation)
    requires x.input.Input? && x.output.Output?
    ensures Accepted(PerKey(), before + [x]) <==>
      Accepted(PerKey(), before) && (Reads(x) ==> x.output.value == StateAfter(PerKey(), before))
  {
    OneMore(PerKey(), before, x);
    Steps(StateAfter(PerKey(), before), map[], x);
    hide StateAfter, PerKey, Accepted;
  }

  // ------------------------------------------------------------------ all keys

  lemma FilterTyped(order: seq<KvOperation>, key: string)
    requires Typed(order)
    ensures Typed(Filter(order, key))
  {
    hide Filter;
    var part := Filter(order, key);
    forall i | 0 <= i < |part| ensures part[i].input.Input? && part[i].output.Output? {
      FilterIn(order, key, part[i]);
      var j :| 0 <= j < |order| && order[j] == part[i];
    }
  }

  // One order of all operations in which every read is told what the puts and appends to its
  // key leave, and which respects real time.
  ghost predicate Explains(history: seq<KvOperation>, order: seq<KvOperation>) {
    && multiset(order) == multiset(history) && RealTime(order)
    && EachRight(order)
  }

  ghost predicate EachRight(order: seq<KvOperation>) {
    forall key :: Typed(Filter(order, key)) && ReadsRight(Filter(order, key))
  }

  lemma TypedSame(history: seq<KvOperation>, order: seq<KvOperation>)
    requires Typed(history) && multiset(order) == multiset(history)
    ensures Typed(order)
  {
    forall i | 0 <= i < |order| ensures order[i].input.Input? && order[i].output.Output? {
      assert order[i] in multiset(order);
      assert order[i] in multiset(history);
      var j :| 0 <= j < |history| && history[j] == order[i];
    }
  }

  // Linearizable against the whole map, said without the model.
  lemma WholeMeans(history: seq<KvOperation>)
    requires Typed(history)
    ensures Linearizable(Whole(), history) <==> exists order :: Explains(history, order)
  {
    hide Accepted, Whole, PerKey, Filter, RealTime, EachRight, Typed;
    forall order | multiset(order) == multiset(history)
      ensures Accepted(Whole(), order) <==> EachRight(order)
    {
      OrderMeans(history, order);
    }
    if order :| Legal(Whole(), history, order) { assert Explains(history, order); }
    if order :| Explains(history, order) { assert Legal(Whole(), history, order); }
  }

  lemma OrderMeans(history: seq<KvOperation>, order: seq<KvOperation>)
    requires Typed(history) && multiset(order) == multiset(history)
    ensures Accepted(Whole(), order) <==> EachRight(order)
  {
    TypedSame(history, order);
    WholeAccepted(order);
    hide Accepted, Whole, PerKey, Filter, ReadsRight, Typed;
    if EachAccepted(order) {
      forall key ensures Typed(Filter(order, key)) && ReadsRight(Filter(order, key)) {
        FilterTyped(order, key);
        AcceptedMeans(Filter(order, key));
        assert Accepted(PerKey(), Filter(order, key));
      }
    }
    if EachRight(order) {
      forall key ensures Accepted(PerKey(), Filter(order, key)) {
        assert Typed(Filter(order, key)) && ReadsRight(Filter(order, key));
        AcceptedMeans(Filter(order, key));
      }
    }
  }
}
