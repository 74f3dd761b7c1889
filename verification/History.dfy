/**
  Operations with call and return times, and their linearizability, stated without events:
  an order of the operations that respects real time and that the model accepts.  The
  events the checker works on are sorted so that the two notions agree.
 */
module History {
  import opened Linearizability
  import opened Search
  import opened Sorting
  import Checker

  // ------------------------------------------------------------ linearizability

  ghost function StateAfter<S(!new), V>(m: Model<S, V>, order: seq<Operation<V>>): S {
    if order == [] then m.init
    else
      var k := |order| - 1;
      m.step(StateAfter(m, order[..k]), order[k].input, order[k].output).1
  }

  ghost predicate Accepted<S(!new), V>(m: Model<S, V>, order: seq<Operation<V>>) {
    order == [] ||
    (var k := |order| - 1;
     && Accepted(m, order[..k])
     && m.step(StateAfter(m, order[..k]), order[k].input, order[k].output).0)
  }

  // No operation is ordered after one that was called when it had already returned.
  ghost predicate RealTime<V>(order: seq<Operation<V>>) {
    forall i, j :: 0 <= i < j < |order| ==> order[i].call <= order[j].ret
  }

  ghost predicate Legal<S(!new), V>(m: Model<S, V>, ops: seq<Operation<V>>, order: seq<Operation<V>>) {
    multiset(order) == multiset(ops) && RealTime(order) && Accepted(m, order)
  }

  ghost predicate Linearizable<S(!new), V(!new)>(m: Model<S, V>, ops: seq<Operation<V>>) {
    exists order :: Legal(m, ops, order)
  }

  ghost predicate Timed<V>(ops: seq<Operation<V>>) {
    forall i :: 0 <= i < |ops| ==> ops[i].call <= ops[i].ret
  }

  // ------------------------------------------------------------------- events

  function CallEntry<V>(op: Operation<V>, id: int): Entry<V> {
    Entry(Call, op.input, id, op.call, op.clientId)
  }

  function ReturnEntry<V>(op: Operation<V>, id: int): Entry<V> {
    Entry(Return, op.output, id, op.ret, op.clientId)
  }

  predicate Less<V>(a: Entry<V>, b: Entry<V>) {
    if a.time != b.time then a.time < b.time else a.kind == Call && b.kind == Return
  }

  // The two events of each operation, before they are sorted.
  ghost function Raw<V>(ops: seq<Operation<V>>): (r: seq<Entry<V>>)
    ensures |r| == 2 * |ops|
  {
    if ops == [] then []
    else
      var k := |ops| - 1;
      Raw(ops[..k]) + [CallEntry(ops[k], k), ReturnEntry(ops[k], k)]
  }

  ghost predicate Events<V>(ops: seq<Operation<V>>, h: seq<Entry<V>>) {
    Sorted(Less, h) && multiset(h) == multiset(Raw(ops))
  }

  // In the order of time, and calls before returns at the same time.
  ghost predicate InTime<V>(h: seq<Entry<V>>) {
    forall i, j :: 0 <= i < j < |h| ==>
      h[i].time <= h[j].time && (h[i].time == h[j].time && h[i].kind == Return ==> h[j].kind == Return)
  }

  // The event says what its operation says.
  ghost predicate Reports<V>(ops: seq<Operation<V>>, e: Entry<V>) {
    && 0 <= e.id < |ops| && e.clientId == ops[e.id].clientId
    && (e.kind == Call ==> e.value == ops[e.id].input && e.time == ops[e.id].call)
    && (e.kind == Return ==> e.value == ops[e.id].output && e.time == ops[e.id].ret)
  }

  method MakeEntries<V(!new)>(ops: seq<Operation<V>>) returns (h: seq<Entry<V>>)
    ensures Events(ops, h) && InTime(h) && forall x :: 0 <= x < |h| ==> Reports(ops, h[x])
  {
    var entries: seq<Entry<V>> := [];
    var id := 0;
    for i := 0 to |ops|
      invariant id == i && entries == Raw(ops[..i])
    {
      var elem := ops[i];
      assert ops[..i + 1][..i] == ops[..i];
      entries := entries + [Entry(Call, elem.input, id, elem.call, elem.clientId)];
      entries := entries + [Entry(Return, elem.output, id, elem.ret, elem.clientId)];
      id := id + 1;
    }
    assert ops[..|ops|] == ops;
    assert WeakOrder<Entry<V>>(Less);
    Sorts(Less, entries);
    h := Sort(Less, entries);
    hide Sort, Sorted, Less, WeakOrder, Raw;
    EventsInTime(ops, h);
  }

  lemma EventsInTime<V>(ops: seq<Operation<V>>, h: seq<Entry<V>>)
    requires Events(ops, h)
    ensures InTime(h) && forall x :: 0 <= x < |h| ==> Reports(ops, h[x])
  {
    hide Raw;
    forall i, j | 0 <= i < j < |h|
      ensures h[i].time <= h[j].time && (h[i].time == h[j].time && h[i].kind == Return ==> h[j].kind == Return)
    {
      assert !Less(h[j], h[i]);
    }
    forall x | 0 <= x < |h| ensures Reports(ops, h[x]) {
      EventIs(ops, h, x);
    }
  }

  lemma {:induction false} RawAt<V>(ops: seq<Operation<V>>, x: nat)
    requires x < 2 * |ops|
    ensures Raw(ops)[x] == if x % 2 == 0 then CallEntry(ops[x / 2], x / 2) else ReturnEntry(ops[x / 2], x / 2)
    decreases |ops|
  {
    var k := |ops| - 1;
    if x < 2 * k {
      RawAt(ops[..k], x);
    }
  }

  lemma {:induction false} AtMostOnce<T>(s: seq<T>, e: T)
    requires forall i, j :: 0 <= i < j < |s| ==> s[i] != s[j]
    ensures multiset(s)[e] <= 1
  {
    if s != [] {
      var k := |s| - 1;
      AtMostOnce(s[..k], e);
      assert s == s[..k] + [s[k]];
      if e in multiset(s[..k]) {
        var i :| 0 <= i < k && s[..k][i] == e;
        assert s[i] == e;
      }
    }
  }

  lemma Twice<T>(s: seq<T>, i: nat, j: nat)
    requires i < j < |s| && s[i] == s[j]
    ensures multiset(s)[s[i]] >= 2
  {
    assert s == s[..i] + [s[i]] + s[i + 1..j] + [s[j]] + s[j + 1..];
  }

  ghost predicate Spread<T>(s: seq<T>) {
    forall i, j :: 0 <= i < j < |s| ==> s[i] != s[j]
  }

  lemma RawSpread<V>(ops: seq<Operation<V>>)
    ensures Spread(Raw(ops))
  {
    forall i, j | 0 <= i < j < |Raw(ops)| ensures Raw(ops)[i] != Raw(ops)[j] {
      RawAt(ops, i);
      RawAt(ops, j);
    }
  }

  lemma EventsSpread<V>(ops: seq<Operation<V>>, h: seq<Entry<V>>)
    requires Events(ops, h)
    ensures Spread(h)
  {
    hide Sorted, Raw;
    RawSpread(ops);
    forall i, j | 0 <= i < j < |h| ensures h[i] != h[j] {
      if h[i] == h[j] {
        Twice(h, i, j);
        AtMostOnce(Raw(ops), h[i]);
        assert false;
      }
    }
  }

  // Every event is the call or the return of the operation it names, and all are there.
  lemma EventIs<V>(ops: seq<Operation<V>>, h: seq<Entry<V>>, x: nat)
    requires Events(ops, h) && x < |h|
    ensures 0 <= h[x].id < |ops|
    ensures h[x] == if h[x].kind == Call then CallEntry(ops[h[x].id], h[x].id) else ReturnEntry(ops[h[x].id], h[x].id)
  {
    hide Sorted, Raw;
    assert h[x] in multiset(h);
    assert h[x] in multiset(Raw(ops));
    var y :| 0 <= y < |Raw(ops)| && Raw(ops)[y] == h[x];
    RawAt(ops, y);
  }

  lemma EventsHave<V>(ops: seq<Operation<V>>, h: seq<Entry<V>>, id: nat)
    requires Events(ops, h) && id < |ops|
    ensures CallEntry(ops[id], id) in h && ReturnEntry(ops[id], id) in h
  {
    hide Sorted, Raw;
    RawAt(ops, 2 * id);
    RawAt(ops, 2 * id + 1);
    assert Raw(ops)[2 * id] in multiset(Raw(ops)) && Raw(ops)[2 * id + 1] in multiset(Raw(ops));
    assert CallEntry(ops[id], id) in multiset(h) && ReturnEntry(ops[id], id) in multiset(h);
  }

  lemma EventsSize<V>(ops: seq<Operation<V>>, h: seq<Entry<V>>)
    requires Events(ops, h)
    ensures |h| == 2 * |ops| && Ops(h) == |ops|
  {
    assert |multiset(h)| == |h| && |multiset(Raw(ops))| == |Raw(ops)|;
  }

  // A call and a return are in the order of their times, calls first on a tie.
  lemma CallReturnOrder<V>(ops: seq<Operation<V>>, h: seq<Entry<V>>, c: nat, r: nat)
    requires Events(ops, h) && c < |h| && r < |h| && h[c].kind == Call && h[r].kind == Return
    ensures r < c <==> h[r].time < h[c].time
  {
    hide Raw;
    assert c != r;
    if r < c { assert !Less(h[c], h[r]); } else { assert !Less(h[r], h[c]); }
  }

  lemma EventsPaired<V>(ops: seq<Operation<V>>, h: seq<Entry<V>>)
    requires Events(ops, h) && Timed(ops)
    ensures Paired(h) && Ops(h) == |ops|
  {
    hide Events;
    EventsSize(ops, h);
    EventsSpread(ops, h);
    forall i | 0 <= i < |h| ensures 0 <= h[i].id < Ops(h) { EventIs(ops, h, i); }
    forall i, j | 0 <= i < j < |h| && h[i].id == h[j].id ensures h[i].kind == Call && h[j].kind == Return {
      EventIs(ops, h, i);
      EventIs(ops, h, j);
      if h[i].kind == Return && h[j].kind == Call { CallReturnOrder(ops, h, j, i); }
    }
    forall id | 0 <= id < Ops(h) ensures HasCall(h, id) && HasReturn(h, id) {
      EventsHave(ops, h, id);
      var i :| 0 <= i < |h| && h[i] == CallEntry(ops[id], id);
      var j :| 0 <= j < |h| && h[j] == ReturnEntry(ops[id], id);
    }
  }

  // Operation id may come next: none left over returned before it was called.
  ghost predicate MayBeNext<V>(ops: seq<Operation<V>>, done: set<int>, id: int) {
    && 0 <= id < |ops| && id !in done
    && forall j :: 0 <= j < |ops| && ops[j].ret < ops[id].call ==> j in done
  }

  lemma MinimalIs<V>(ops: seq<Operation<V>>, h: seq<Entry<V>>, done: set<int>, id: int)
    requires Events(ops, h) && Timed(ops) && Paired(h) && Ops(h) == |ops|
    ensures Minimal(h, done, id) <==> MayBeNext(ops, done, id)
  {
    hide Events, Paired;
    if 0 <= id < |ops| {
      var c := CallOf(h, id);
      EventIs(ops, h, c);
      if Minimal(h, done, id) {
        forall j | 0 <= j < |ops| && ops[j].ret < ops[id].call ensures j in done {
          var r := ReturnOf(h, j);
          EventIs(ops, h, r);
          CallReturnOrder(ops, h, c, r);
        }
      }
      if MayBeNext(ops, done, id) {
        forall r | 0 <= r < c && h[r].kind == Return ensures h[r].id in done {
          EventIs(ops, h, r);
          CallReturnOrder(ops, h, c, r);
        }
      }
    }
  }

  // ------------------------------------------------------- orders and id sequences

  ghost predicate InRange(path: seq<int>, n: nat) {
    forall i :: 0 <= i < |path| ==> 0 <= path[i] < n
  }

  ghost function OpsOf<V>(ops: seq<Operation<V>>, path: seq<int>): (r: seq<Operation<V>>)
    requires InRange(path, |ops|)
    ensures |r| == |path| && forall i :: 0 <= i < |path| ==> r[i] == ops[path[i]]
  {
    seq(|path|, i requires 0 <= i < |path| => ops[path[i]])
  }

  lemma StepIs<S(!new), V>(m: Model<S, V>, ops: seq<Operation<V>>, h: seq<Entry<V>>, s: S, id: int)
    requires Events(ops, h) && Paired(h) && Ops(h) == |ops| && 0 <= id < |ops|
    ensures StepOp(m, h, s, id) == m.step(s, ops[id].input, ops[id].output)
  {
    EventIs(ops, h, CallOf(h, id));
    EventIs(ops, h, ReturnOf(h, id));
  }

  ghost predicate Fair<V>(ops: seq<Operation<V>>, path: seq<int>) {
    path == [] ||
    (var k := |path| - 1;
     Fair(ops, path[..k]) && MayBeNext(ops, Ids(path[..k]), path[k]))
  }

  lemma {:induction false} PathMeans<S(!new), V>(m: Model<S, V>, ops: seq<Operation<V>>, h: seq<Entry<V>>,
                                                 path: seq<int>)
    requires Events(ops, h) && Timed(ops) && Paired(h) && Ops(h) == |ops| && InRange(path, |ops|)
    ensures After(m, h, path) == StateAfter(m, OpsOf(ops, path))
    ensures Partial(m, h, path) <==> Fair(ops, path) && Accepted(m, OpsOf(ops, path))
    decreases |path|
  {
    hide Events, Timed, Paired, Minimal, MayBeNext, StepOp;
    if path != [] {
      var k := |path| - 1;
      PathMeans(m, ops, h, path[..k]);
      assert OpsOf(ops, path)[..k] == OpsOf(ops, path[..k]);
      StepIs(m, ops, h, After(m, h, path[..k]), path[k]);
      MinimalIs(ops, h, Ids(path[..k]), path[k]);
    }
  }

  // A rearrangement of 0 .. n-1.
  ghost predicate Permuted(path: seq<int>, n: nat) {
    |path| == n && InRange(path, n) && Spread(path)
  }

  lemma {:induction false} FairSpread<V>(ops: seq<Operation<V>>, path: seq<int>)
    requires Fair(ops, path)
    ensures InRange(path, |ops|) && Spread(path)
    ensures forall i :: 0 <= i < |path| ==> MayBeNext(ops, Ids(path[..i]), path[i])
    decreases |path|
  {
    if path != [] {
      var k := |path| - 1;
      FairSpread(ops, path[..k]);
      hide MayBeNext;
      forall i | 0 <= i < |path| ensures MayBeNext(ops, Ids(path[..i]), path[i]) {
        if i < k { assert path[..k][i] == path[i] && path[..k][..i] == path[..i]; }
      }
    }
  }

  lemma FairIsRealTime<V>(ops: seq<Operation<V>>, path: seq<int>)
    requires Fair(ops, path) && |path| == |ops|
    ensures Permuted(path, |ops|) && RealTime(OpsOf(ops, path))
  {
    FairSpread(ops, path);
    forall i, j | 0 <= i < j < |path| ensures ops[path[i]].call <= ops[path[j]].ret {
      assert MayBeNext(ops, Ids(path[..i]), path[i]);
      assert path[j] !in path[..i];
    }
  }

  // Every id is somewhere in a rearrangement.
  lemma Hit(path: seq<int>, n: nat, id: int) returns (b: nat)
    requires Permuted(path, n) && 0 <= id < n
    ensures b < n && path[b] == id
  {
    SpreadIds(path);
    IdsBelow(Ids(path), n);
    assert id in Ids(path);
    b :| b < n && path[b] == id;
  }

  lemma {:induction false} SpreadIds(path: seq<int>)
    requires Spread(path)
    ensures |Ids(path)| == |path|
  {
    if path == [] {
      assert Ids(path) == {};
    } else {
      var k := |path| - 1;
      SpreadIds(path[..k]);
      assert path == path[..k] + [path[k]];
      assert Ids(path) == Ids(path[..k]) + {path[k]};
    }
  }

  lemma {:induction false} RealTimeIsFair<V>(ops: seq<Operation<V>>, path: seq<int>, k: nat)
    requires Permuted(path, |ops|) && RealTime(OpsOf(ops, path)) && Timed(ops) && k <= |path|
    ensures Fair(ops, path[..k])
  {
    if k > 0 {
      var p, id := path[..k - 1], path[k - 1];
      RealTimeIsFair(ops, path, k - 1);
      assert path[..k][..k - 1] == p;
      forall j | 0 <= j < |ops| && ops[j].ret < ops[id].call ensures j in Ids(p) {
        var b := Hit(path, |ops|, j);
        assert OpsOf(ops, path)[b] == ops[j] && OpsOf(ops, path)[k - 1] == ops[id];
        assert b < k - 1;
        assert p[b] == j;
      }
    }
  }

  ghost function Drop<T>(s: seq<T>, b: nat): (r: seq<T>)
    requires b < |s|
    ensures |r| == |s| - 1
  {
    s[..b] + s[b + 1..]
  }

  lemma DropMultiset<T>(s: seq<T>, b: nat)
    requires b < |s|
    ensures multiset(s) == multiset(Drop(s, b)) + multiset{s[b]}
  {
    assert s == s[..b] + [s[b]] + s[b + 1..];
  }

  lemma DropPermuted(path: seq<int>, b: nat)
    requires Permuted(path, |path|) && b < |path| && path[b] == |path| - 1
    ensures Permuted(Drop(path, b), |path| - 1)
  {
    var rest := Drop(path, b);
    assert forall i :: 0 <= i < |rest| ==> rest[i] == path[if i < b then i else i + 1];
  }

  lemma {:induction false} PermutedMultiset<V>(ops: seq<Operation<V>>, path: seq<int>)
    requires Permuted(path, |ops|)
    ensures multiset(OpsOf(ops, path)) == multiset(ops)
    decreases |ops|
  {
    if ops != [] {
      var k := |ops| - 1;
      var b := Hit(path, |ops|, k);
      DropPermuted(path, b);
      PermutedMultiset(ops[..k], Drop(path, b));
      assert OpsOf(ops[..k], Drop(path, b)) == Drop(OpsOf(ops, path), b);
      hide Drop, Permuted;
      DropMultiset(OpsOf(ops, path), b);
      assert ops == ops[..k] + [ops[k]];
    }
  }

  lemma WidenPermuted(rest: seq<int>, b: nat)
    requires Permuted(rest, |rest|) && b <= |rest|
    ensures Permuted(rest[..b] + [|rest|] + rest[b..], |rest| + 1)
  {
  }

  lemma {:induction false} Rearranged<V>(ops: seq<Operation<V>>, order: seq<Operation<V>>) returns (path: seq<int>)
    requires multiset(order) == multiset(ops)
    ensures Permuted(path, |ops|) && OpsOf(ops, path) == order
    decreases |ops|
  {
    assert |multiset(order)| == |order| && |multiset(ops)| == |ops|;
    if ops == [] {
      path := [];
    } else {
      var k := |ops| - 1;
      assert ops == ops[..k] + [ops[k]];
      assert ops[k] in multiset(order);
      var b :| 0 <= b < |order| && order[b] == ops[k];
      DropMultiset(order, b);
      DropMultiset(ops, k);
      assert multiset(Drop(order, b)) == multiset(order) - multiset{ops[k]};
      assert Drop(ops, k) == ops[..k] && multiset(ops[..k]) == multiset(ops) - multiset{ops[k]};
      var rest := Rearranged(ops[..k], Drop(order, b));
      path := rest[..b] + [k] + rest[b..];
      WidenPermuted(rest, b);
      OpsOfWiden(ops, order, rest, b);
    }
  }

  lemma OpsOfWiden<V>(ops: seq<Operation<V>>, order: seq<Operation<V>>, rest: seq<int>, b: nat)
    requires |order| == |ops| == |rest| + 1 && b <= |rest| && order[b] == ops[|rest|]
    requires Permuted(rest, |rest|) && OpsOf(ops[..|rest|], rest) == Drop(order, b)
    requires Permuted(rest[..b] + [|rest|] + rest[b..], |ops|)
    ensures OpsOf(ops, rest[..b] + [|rest|] + rest[b..]) == order
  {
    var path := rest[..b] + [|rest|] + rest[b..];
    forall i | 0 <= i < |path| ensures ops[path[i]] == order[i] {
      if i < b { assert OpsOf(ops[..|rest|], rest)[i] == Drop(order, b)[i]; }
      if i > b { assert OpsOf(ops[..|rest|], rest)[i - 1] == Drop(order, b)[i - 1]; }
    }
  }

  // The events' linearizability is the operations'.
  lemma EventsMean<S(!new), V(!new)>(m: Model<S, V>, ops: seq<Operation<V>>, h: seq<Entry<V>>)
    requires Events(ops, h) && Timed(ops)
    ensures Paired(h)
    ensures Checker.Linearizable(m, h) <==> Linearizable(m, ops)
  {
    EventsPaired(ops, h);
    hide Events, Timed, Paired, Permuted, RealTime, Accepted, Partial, InRange;
    if path :| Complete(m, h, path) {
      PartialInRange(m, h, path, |ops|);
      PathMeans(m, ops, h, path);
      FairIsRealTime(ops, path);
      PermutedMultiset(ops, path);
      assert Legal(m, ops, OpsOf(ops, path));
    }
    if order :| Legal(m, ops, order) {
      var path := Rearranged(ops, order);
      PermutedParts(path, |ops|);
      RealTimeIsFair(ops, path, |path|);
      assert path[..|path|] == path;
      PathMeans(m, ops, h, path);
      assert Complete(m, h, path);
    }
  }

  lemma PermutedParts(path: seq<int>, n: nat)
    requires Permuted(path, n)
    ensures |path| == n && InRange(path, n)
  {
  }

  lemma PartialInRange<S(!new), V>(m: Model<S, V>, h: seq<Entry<V>>, path: seq<int>, n: nat)
    requires Paired(h) && Partial(m, h, path) && n == Ops(h)
    ensures InRange(path, n)
  {
    PartialDistinct(m, h, path);
  }

  // checkSingle on the events of a history decides its linearizability.
  method CheckHistory<S(!new), V(!new)>(m: Model<S, V>, ops: seq<Operation<V>>) returns (ok: bool)
    requires Reflexive(m) && Timed(ops)
    ensures ok ==> Linearizable(m, ops)
    ensures Congruent(m) && Linearizable(m, ops) ==> ok
  {
    var h := MakeEntries(ops);
    EventsMean(m, ops, h);
    hide Congruent, Reflexive, Paired, Events, Timed, Linearizable, Checker.Linearizable;
    var verdict, _ := Checker.CheckSingle(m, h, false);
    return verdict;
  }

  // The parts of a history, one after the other until one fails.
  method CheckParts<S(!new), V(!new)>(m: Model<S, V>, parts: seq<seq<Operation<V>>>) returns (ok: bool)
    requires Reflexive(m) && forall i :: 0 <= i < |parts| ==> Timed(parts[i])
    ensures ok ==> forall i :: 0 <= i < |parts| ==> Linearizable(m, parts[i])
    ensures Congruent(m) && (forall i :: 0 <= i < |parts| ==> Linearizable(m, parts[i])) ==> ok
  {
    hide Congruent, Reflexive, Timed, Linearizable;
    ok := true;
    var count := 0;
    while count < |parts|
      invariant 0 <= count <= |parts| && ok
      invariant forall j :: 0 <= j < count ==> Linearizable(m, parts[j])
    {
      var result := CheckHistory(m, parts[count]);
      ok := ok && result;
      if !ok {
        break;
      }
      count := count + 1;
    }
  }
}
