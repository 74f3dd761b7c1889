/**
  Sequential models, concurrent histories and what it means for a history to be
  linearizable.  Values are untyped, as in the source: inputs and outputs are both V.
 */
module Linearizability {

  datatype Model<!S(!new), !V> = Model(init: S, step: (S, V, V) -> (bool, S), equal: (S, S) -> bool)

  datatype Operation<V> = Operation(clientId: int, input: V, call: int, output: V, ret: int)

  datatype Kind = Call | Return

  datatype Entry<V> = Entry(kind: Kind, value: V, id: int, time: int, clientId: int)

  // Equality of states is an equivalence that no operation can tell apart.
  ghost predicate Congruent<S(!new), V(!new)>(m: Model<S, V>) {
    && (forall a: S :: m.equal(a, a))
    && (forall a: S, b: S, c: S :: m.equal(a, b) && m.equal(b, c) ==> m.equal(a, c))
    && (forall a: S, b: S, x: V, y: V :: m.equal(a, b) && m.step(a, x, y).0 ==>
          m.step(b, x, y).0 && m.equal(m.step(a, x, y).1, m.step(b, x, y).1))
  }

  // ------------------------------------------------------------- event histories

  function Ops<V>(h: seq<Entry<V>>): nat {
    |h| / 2
  }

  // Operations 0, 1, ..., n-1, each called once and returned once, in this order.
  ghost predicate Paired<V>(h: seq<Entry<V>>) {
    && |h| % 2 == 0
    && (forall i :: 0 <= i < |h| ==> 0 <= h[i].id < Ops(h))
    && (forall i, j :: 0 <= i < j < |h| && h[i].id == h[j].id ==> h[i].kind == Call && h[j].kind == Return)
    && (forall id :: 0 <= id < Ops(h) ==> HasCall(h, id) && HasReturn(h, id))
  }

  ghost predicate HasCall<V>(h: seq<Entry<V>>, id: int) {
    exists i :: 0 <= i < |h| && h[i].id == id && h[i].kind == Call
  }

  ghost predicate HasReturn<V>(h: seq<Entry<V>>, id: int) {
    exists i :: 0 <= i < |h| && h[i].id == id && h[i].kind == Return
  }

  ghost function CallOf<V>(h: seq<Entry<V>>, id: int): (i: nat)
    requires Paired(h) && 0 <= id < Ops(h)
    ensures i < |h| && h[i].id == id && h[i].kind == Call
  {
    assert HasCall(h, id);
    var i :| 0 <= i < |h| && h[i].id == id && h[i].kind == Call;
    i
  }

  ghost function ReturnOf<V>(h: seq<Entry<V>>, id: int): (i: nat)
    requires Paired(h) && 0 <= id < Ops(h)
    ensures i < |h| && h[i].id == id && h[i].kind == Return && CallOf(h, id) < i
  {
    assert HasReturn(h, id);
    var i :| 0 <= i < |h| && h[i].id == id && h[i].kind == Return;
    i
  }

  ghost function Ids(path: seq<int>): set<int> {
    set x | x in path
  }

  // With the operations in done out of the way, id may come next: nothing else has
  // returned before its call.
  ghost predicate Minimal<V>(h: seq<Entry<V>>, done: set<int>, id: int)
    requires Paired(h)
  {
    && 0 <= id < Ops(h) && id !in done
    && forall r :: 0 <= r < CallOf(h, id) && h[r].kind == Return ==> h[r].id in done
  }

  ghost function StepOp<S(!new), V>(m: Model<S, V>, h: seq<Entry<V>>, s: S, id: int): (bool, S)
    requires Paired(h) && 0 <= id < Ops(h)
  {
    m.step(s, h[CallOf(h, id)].value, h[ReturnOf(h, id)].value)
  }

  // The state after the operations of path, whether or not the model accepts them.
  ghost function After<S(!new), V>(m: Model<S, V>, h: seq<Entry<V>>, path: seq<int>): S
    requires Paired(h)
  {
    if path == [] then m.init
    else
      var k := |path| - 1;
      if 0 <= path[k] < Ops(h) then StepOp(m, h, After(m, h, path[..k]), path[k]).1 else m.init
  }

  // A partial linearization: some of the operations, in an order that respects real time
  // and that the model accepts.
  ghost predicate Partial<S(!new), V>(m: Model<S, V>, h: seq<Entry<V>>, path: seq<int>)
    requires Paired(h)
  {
    path == [] ||
    (var k := |path| - 1;
     && Partial(m, h, path[..k])
     && Minimal(h, Ids(path[..k]), path[k])
     && StepOp(m, h, After(m, h, path[..k]), path[k]).0)
  }

  ghost predicate Complete<S(!new), V>(m: Model<S, V>, h: seq<Entry<V>>, path: seq<int>)
    requires Paired(h)
  {
    Partial(m, h, path) && |path| == Ops(h)
  }

  // --------------------------------------------------------------- lists of ids

  lemma {:induction false} PartialDistinct<S(!new), V>(m: Model<S, V>, h: seq<Entry<V>>, path: seq<int>)
    requires Paired(h) && Partial(m, h, path)
    ensures |Ids(path)| == |path|
    ensures forall x :: x in path ==> 0 <= x < Ops(h)
    decreases |path|
  {
    if path == [] {
      assert Ids(path) == {};
    } else {
      var k := |path| - 1;
      PartialDistinct(m, h, path[..k]);
      assert Ids(path) == Ids(path[..k]) + {path[k]};
      assert path == path[..k] + [path[k]];
    }
  }

  lemma Extend<S(!new), V>(m: Model<S, V>, h: seq<Entry<V>>, path: seq<int>, id: int)
    requires Paired(h) && Partial(m, h, path) && Minimal(h, Ids(path), id) && StepOp(m, h, After(m, h, path), id).0
    ensures Partial(m, h, path + [id])
    ensures After(m, h, path + [id]) == StepOp(m, h, After(m, h, path), id).1
    ensures Ids(path + [id]) == Ids(path) + {id}
  {
    assert (path + [id])[..|path|] == path;
  }
}
