/**
  checkSingle: the backtracking search over the linked list, with its bitset, its hashed
  table of visited configurations and its stack of calls, all updated in place.  It is
  proved to decide linearizability for every history of paired calls and returns.
 */
module Checker {
  import opened Wrappers
  import opened Linearizability
  import opened Search
  import opened EntryList
  import Bitset

  datatype CacheEntry<S> = CacheEntry(words: seq<bv64>, state: S)

  datatype Digest = Digest(word: bv64)

  type Cache<S> = map<Digest, seq<CacheEntry<S>>>

  datatype CallsEntry<S, V(!new)> = CallsEntry(entry: Node<V>, state: S)

  // ------------------------------------------------------------------ the cache

  ghost predicate Holds<S>(cache: Cache<S>, e: CacheEntry<S>) {
    exists k :: k in cache && e in cache[k]
  }

  // Every entry is in the bucket of its hash.
  ghost predicate Hashed<S>(cache: Cache<S>) {
    forall k, e :: k in cache && e in cache[k] ==> Digest(Bitset.HashOf(e.words)) == k
  }

  // The bucketed look-up agrees with a search through every entry.
  method CacheContains<S(!new), V>(m: Model<S, V>, cache: Cache<S>, words: array<bv64>, state: S) returns (r: bool)
    requires Hashed(cache)
    ensures r <==> exists e :: Holds(cache, e) && e.words == words[..] && m.equal(state, e.state)
  {
    hide Bitset.HashOf;
    var word := Bitset.Hash(words);
    var hash := Digest(word);
    var bucket := if hash in cache then cache[hash] else [];
    for i := 0 to |bucket|
      invariant forall j :: 0 <= j < i ==> !(bucket[j].words == words[..] && m.equal(state, bucket[j].state))
    {
      var same := Bitset.Equals(words, bucket[i].words);
      if same && m.equal(state, bucket[i].state) {
        assert bucket[i] in cache[hash];
        assert Holds(cache, bucket[i]);
        return true;
      }
    }
    return false;
  }

  method CacheAdd<S(!new)>(cache: Cache<S>, words: array<bv64>, state: S) returns (r: Cache<S>)
    requires Hashed(cache)
    ensures Hashed(r)
    ensures forall e :: Holds(r, e) <==> Holds(cache, e) || e == CacheEntry(words[..], state)
  {
    hide Bitset.HashOf;
    var word := Bitset.Hash(words);
    var hash := Digest(word);
    var bucket := if hash in cache then cache[hash] else [];
    var added := CacheEntry(words[..], state);
    var longer := bucket + [added];
    r := cache[hash := longer];
    assert forall e :: e in longer <==> e in bucket || e == added;
    assert r[hash] == longer;
    forall e ensures Holds(r, e) <==> Holds(cache, e) || e == added {
      if Holds(cache, e) {
        var k :| k in cache && e in cache[k];
        assert k in r && e in r[k];
      }
      if e == added { assert hash in r && e in r[hash]; }
      if Holds(r, e) {
        var k :| k in r && e in r[k];
        if k != hash { assert k in cache && e in cache[k]; }
        if k == hash && e != added { assert e in bucket && e in cache[hash]; }
      }
    }
  }

  ghost function Key<S>(c: Config<S>, len: nat): CacheEntry<S> {
    CacheEntry(Bitset.Canon(c.done, len), c.state)
  }

  ghost predicate Fits(done: set<int>, n: nat) {
    forall x :: x in done ==> 0 <= x < n
  }

  // The table holds the visited configurations, except the one the search starts from.
  ghost predicate Tabled<S(!new)>(cache: Cache<S>, visited: set<Config<S>>, len: nat, n: nat) {
    && Hashed(cache)
    && (forall v :: v in visited ==> Fits(v.done, n))
    && (forall v :: v in visited && v.done != {} ==> Holds(cache, Key(v, len)))
    && (forall e :: Holds(cache, e) ==> exists v :: v in visited && v.done != {} && e == Key(v, len))
  }

  lemma TabledCovers<S(!new), V>(m: Model<S, V>, cache: Cache<S>, visited: set<Config<S>>, len: nat, n: nat,
                                 c: Config<S>)
    requires Tabled(cache, visited, len, n) && n <= 64 * len && Fits(c.done, n) && c.done != {}
    ensures Covered(m, visited, c) <==>
      exists e :: Holds(cache, e) && e.words == Bitset.Canon(c.done, len) && m.equal(c.state, e.state)
  {
    hide Holds;
    if Covered(m, visited, c) {
      var v :| v in visited && v.done == c.done && m.equal(c.state, v.state);
      assert Holds(cache, Key(v, len));
    }
    if e :| Holds(cache, e) && e.words == Bitset.Canon(c.done, len) && m.equal(c.state, e.state) {
      var v :| v in visited && v.done != {} && e == Key(v, len);
      Bitset.CanonInjective(v.done, c.done, len);
    }
  }

  lemma TabledMore<S(!new)>(cache: Cache<S>, cache': Cache<S>, visited: set<Config<S>>, len: nat, n: nat, c: Config<S>)
    requires Tabled(cache, visited, len, n) && Fits(c.done, n) && c.done != {} && Hashed(cache')
    requires forall e :: Holds(cache', e) <==> Holds(cache, e) || e == Key(c, len)
    ensures Tabled(cache', visited + {c}, len, n)
  {
    hide Holds, Hashed, Key;
    var more := visited + {c};
    forall e | Holds(cache', e) ensures exists v :: v in more && v.done != {} && e == Key(v, len) {
      if Holds(cache, e) {
        var v :| v in visited && v.done != {} && e == Key(v, len);
        assert v in more;
      }
    }
  }

  // ------------------------------------------------------------------ the list

  ghost function Dead<V>(h: seq<Entry<V>>, done: set<int>): set<int> {
    set i | 0 <= i < |h| && h[i].id in done :: i + 1
  }

  lemma DeadMore<V>(h: seq<Entry<V>>, done: set<int>, id: int)
    requires Paired(h) && 0 <= id < Ops(h)
    ensures Dead(h, done + {id}) == Dead(h, done) + {CallOf(h, id) + 1} + {ReturnOf(h, id) + 1}
  {
    forall i | 0 <= i < |h| && h[i].id == id ensures i == CallOf(h, id) || i == ReturnOf(h, id) {}
  }

  lemma DeadIs<V>(h: seq<Entry<V>>, done: set<int>, p: int)
    ensures p in Dead(h, done) <==> 1 <= p <= |h| && h[p - 1].id in done
  {
    if 1 <= p <= |h| { assert p == (p - 1) + 1; }
  }

  // The list is the history, a sentinel in front.
  ghost predicate Listed<V(!new)>(h: seq<Entry<V>>, all: seq<Node<V>>) {
    && |all| == |h| + 1
    && forall i {:trigger h[i]} :: 0 <= i < |h| ==>
         var x := all[i + 1];
         x.id == h[i].id && x.value == Some(h[i].value) && (x.partner != null <==> h[i].kind == Call)
  }

  ghost predicate Mated<V(!new)>(h: seq<Entry<V>>, all: seq<Node<V>>)
    requires Paired(h) && |all| == |h| + 1
  {
    forall id :: 0 <= id < Ops(h) ==> all[CallOf(h, id) + 1].partner == all[ReturnOf(h, id) + 1]
  }

  lemma {:induction false} SeekIs<V>(h: seq<Entry<V>>, j: nat, id: int)
    requires Paired(h) && 0 <= id < Ops(h) && j <= ReturnOf(h, id)
    ensures Seek(h, j, id) == ReturnOf(h, id)
    decreases |h| - j
  {
    if j < ReturnOf(h, id) { SeekIs(h, j + 1, id); }
  }

  lemma CallIs<V>(h: seq<Entry<V>>, i: nat)
    requires Paired(h) && i < |h|
    ensures 0 <= h[i].id < Ops(h)
    ensures i == if h[i].kind == Call then CallOf(h, h[i].id) else ReturnOf(h, h[i].id)
  {
  }

  lemma NodeAt<V(!new)>(h: seq<Entry<V>>, nodes: seq<Node<V>>, i: nat)
    requires Paired(h) && Nodes(h, 0, nodes) && i < |h|
    ensures |nodes| == |h| && 0 <= h[i].id < Ops(h)
    ensures nodes[i].id == h[i].id && nodes[i].value == Some(h[i].value)
    ensures nodes[i].partner == if h[i].kind == Call then nodes[ReturnOf(h, h[i].id)] else null
  {
    hide Seek;
    CallIs(h, i);
    if h[i].kind == Call { SeekIs(h, i + 1, h[i].id); }
  }

  lemma NodesSize<V(!new)>(h: seq<Entry<V>>, nodes: seq<Node<V>>)
    requires Nodes(h, 0, nodes)
    ensures |nodes| == |h| && Ops(h) == |h| / 2
  {
  }

  lemma ListedFrom<V(!new)>(h: seq<Entry<V>>, nodes: seq<Node<V>>, head: Node<V>)
    requires Paired(h) && Nodes(h, 0, nodes)
    ensures Listed(h, [head] + nodes) && Mated(h, [head] + nodes)
  {
    hide Paired, Nodes, CallOf, ReturnOf;
    var all := [head] + nodes;
    assert |all| == |h| + 1 by { NodesSize(h, nodes); }
    forall i | 0 <= i < |h|
      ensures all[i + 1].id == h[i].id && all[i + 1].value == Some(h[i].value)
      ensures all[i + 1].partner != null <==> h[i].kind == Call
    {
      NodeAt(h, nodes, i);
    }
    forall id | 0 <= id < Ops(h) ensures all[CallOf(h, id) + 1].partner == all[ReturnOf(h, id) + 1] {
      NodeAt(h, nodes, CallOf(h, id));
    }
  }

  // The stack of calls: each with the state before it, and its two nodes still pointing to
  // where they were in the list.
  ghost predicate Stacked<S(!new), V(!new)>(m: Model<S, V>, h: seq<Entry<V>>, all: seq<Node<V>>, links: seq<Link<V>>,
                                            calls: seq<CallsEntry<S, V>>, path: seq<int>)
    requires Paired(h) && |all| == |h| + 1
  {
    && |calls| == |path|
    && (path != [] ==>
          var k := |path| - 1;
          var id, dead := path[k], Dead(h, Ids(path[..k]));
          && 0 <= id < Ops(h)
          && calls[k] == CallsEntry(all[CallOf(h, id) + 1], After(m, h, path[..k]))
          && Points(all, links, dead, CallOf(h, id) + 1)
          && Points(all, links, dead + {CallOf(h, id) + 1}, ReturnOf(h, id) + 1)
          && Stacked(m, h, all, links, calls[..k], path[..k]))
  }

  lemma {:induction false} StackedSame<S(!new), V(!new)>(m: Model<S, V>, h: seq<Entry<V>>, all: seq<Node<V>>,
      links: seq<Link<V>>, links': seq<Link<V>>, calls: seq<CallsEntry<S, V>>, path: seq<int>, dead: set<int>)
    requires Paired(h) && |all| == |h| + 1 == |links| == |links'| && Stacked(m, h, all, links, calls, path)
    requires Dead(h, Ids(path)) <= dead && forall x :: x in dead && 0 <= x < |all| ==> links'[x] == links[x]
    ensures Stacked(m, h, all, links', calls, path)
    decreases |path|
  {
    hide Paired, Points, After;
    if path != [] {
      var k := |path| - 1;
      var id, below := path[k], Ids(path[..k]);
      assert Ids(path) == below + {id};
      DeadMore(h, below, id);
      PointsSame(all, links, links', Dead(h, below), CallOf(h, id) + 1);
      PointsSame(all, links, links', Dead(h, below) + {CallOf(h, id) + 1}, ReturnOf(h, id) + 1);
      StackedSame(m, h, all, links, links', calls[..k], path[..k], dead);
    }
  }

  lemma {:induction false} StackedIds<S(!new), V(!new)>(m: Model<S, V>, h: seq<Entry<V>>, all: seq<Node<V>>,
      links: seq<Link<V>>, calls: seq<CallsEntry<S, V>>, path: seq<int>)
    requires Paired(h) && Listed(h, all) && Stacked(m, h, all, links, calls, path)
    ensures |calls| == |path| && forall i :: 0 <= i < |path| ==> calls[i].entry.id == path[i]
    decreases |path|
  {
    hide Paired, Points, After;
    if path != [] {
      var k := |path| - 1;
      StackedIds(m, h, all, links, calls[..k], path[..k]);
      forall i | 0 <= i < |path| ensures calls[i].entry.id == path[i] {
        if i < k { assert calls[i] == calls[..k][i] && path[i] == path[..k][i]; }
      }
    }
  }

  // ---------------------------------------------------------------- the position

  // The search stands at position pos of the list: an operation not yet done, or the end,
  // with no live return before it.
  ghost predicate Standing<V>(h: seq<Entry<V>>, path: seq<int>, pos: int) {
    && 1 <= pos <= |h| + 1
    && (pos <= |h| ==> h[pos - 1].id !in path)
    && forall r :: 0 <= r < pos - 1 && h[r].kind == Return ==> h[r].id in path
  }

  ghost function Onward<V>(h: seq<Entry<V>>, path: seq<int>, pos: int): int {
    NextLive(|h| + 1, Dead(h, Ids(path)), pos)
  }

  lemma StepNext<V>(h: seq<Entry<V>>, path: seq<int>, pos: nat)
    requires pos <= |h|
    ensures pos < Onward(h, path, pos) <= |h| + 1
    ensures forall r :: pos <= r < Onward(h, path, pos) - 1 ==> h[r].id in path
    ensures Onward(h, path, pos) <= |h| ==> h[Onward(h, path, pos) - 1].id !in path
  {
    var n, dead := |h| + 1, Dead(h, Ids(path));
    NextIs(n, dead, pos);
    forall r | pos <= r < Onward(h, path, pos) - 1 ensures h[r].id in path { DeadIs(h, Ids(path), r + 1); }
    DeadIs(h, Ids(path), Onward(h, path, pos));
  }

  ghost predicate Searching<S(!new), V>(m: Model<S, V>, h: seq<Entry<V>>, path: seq<int>, pos: int,
                                        visited: set<Config<S>>)
    requires Paired(h)
  {
    Walking(m, h, path, pos - 1, visited) && Standing(h, path, pos) && visited <= Universe(m, h)
  }

  lemma SearchStart<S(!new), V>(m: Model<S, V>, h: seq<Entry<V>>)
    requires Paired(h)
    ensures Searching(m, h, [], 1, {At(m, h, [])})
  {
    hide Walking, At;
    Started(m, h);
    InUniverse(m, h, []);
  }

  lemma CallHere<V>(h: seq<Entry<V>>, path: seq<int>, pos: int)
    requires Paired(h) && Standing(h, path, pos) && pos <= |h| && h[pos - 1].kind == Call
    ensures Minimal(h, Ids(path), h[pos - 1].id) && CallOf(h, h[pos - 1].id) == pos - 1
  {
    CallIs(h, pos - 1);
  }

  lemma SearchSkip<S(!new), V>(m: Model<S, V>, h: seq<Entry<V>>, path: seq<int>, pos: int, visited: set<Config<S>>)
    requires Paired(h) && Searching(m, h, path, pos, visited) && pos <= |h| && h[pos - 1].kind == Call
    requires StepOp(m, h, After(m, h, path), h[pos - 1].id).0 ==> Covered(m, visited, Child(m, h, path, h[pos - 1].id))
    ensures Searching(m, h, path, Onward(h, path, pos), visited)
  {
    hide Walking, Minimal, Covered, Universe, StepOp, Onward;
    var pos' := Onward(h, path, pos);
    StepNext(h, path, pos);
    CallHere(h, path, pos);
    Skipped(m, h, path, pos - 1, visited, h[pos - 1].id, pos' - 1);
  }

  ghost function Child<S(!new), V>(m: Model<S, V>, h: seq<Entry<V>>, path: seq<int>, id: int): Config<S>
    requires Paired(h) && 0 <= id < Ops(h)
  {
    Next(m, h, At(m, h, path), id)
  }

  lemma SearchPush<S(!new), V>(m: Model<S, V>, h: seq<Entry<V>>, path: seq<int>, pos: int, visited: set<Config<S>>)
    requires Paired(h) && Reflexive(m) && Searching(m, h, path, pos, visited) && pos <= |h| && h[pos - 1].kind == Call
    requires var id := h[pos - 1].id;
      StepOp(m, h, After(m, h, path), id).0 && !Covered(m, visited, Child(m, h, path, id))
    ensures var id := h[pos - 1].id; var path' := path + [id]; var c := Child(m, h, path, id);
      && Searching(m, h, path', Onward(h, path', 0), visited + {c})
      && At(m, h, path') == c && c !in visited && c in Universe(m, h)
  {
    hide Walking, Minimal, Universe, StepOp, Onward, At, Next;
    var id := h[pos - 1].id;
    var path', c := path + [id], Child(m, h, path, id);
    StepNext(h, path', 0);
    CallHere(h, path, pos);
    var pos' := Onward(h, path', 0);
    Pushed(m, h, path, pos - 1, visited, id, pos' - 1);
    WalkingPartial(m, h, path', pos' - 1, visited + {c});
    InUniverse(m, h, path');
    assert m.equal(c.state, c.state);
  }

  lemma WalkingPartial<S(!new), V>(m: Model<S, V>, h: seq<Entry<V>>, path: seq<int>, bound: int,
                                   visited: set<Config<S>>)
    requires Paired(h) && Walking(m, h, path, bound, visited)
    ensures Partial(m, h, path)
  {
  }

  lemma SearchPop<S(!new), V>(m: Model<S, V>, h: seq<Entry<V>>, path: seq<int>, pos: int, visited: set<Config<S>>)
    requires Paired(h) && Searching(m, h, path, pos, visited) && pos <= |h| && h[pos - 1].kind == Return && path != []
    requires 0 <= path[|path| - 1] < Ops(h)
    ensures var p := path[..|path| - 1]; Searching(m, h, p, Onward(h, p, CallOf(h, path[|path| - 1]) + 1), visited)
  {
    hide Walking, Universe, StepOp, Onward;
    var k := |path| - 1;
    var p, id := path[..k], path[k];
    var at := CallOf(h, id) + 1;
    StepNext(h, p, at);
    WalkingPartial(m, h, path, pos - 1, visited);
    assert Minimal(h, Ids(p), id);
    var pos' := Onward(h, p, at);
    Popped(m, h, path, pos - 1, visited, pos' - 1);
  }

  lemma SearchEnd<S(!new), V>(m: Model<S, V>, h: seq<Entry<V>>, pos: int, visited: set<Config<S>>)
    requires Paired(h) && Searching(m, h, [], pos, visited) && pos <= |h| && h[pos - 1].kind == Return
    ensures Walking(m, h, [], |h|, visited)
  {
    hide Trail, DoneBelow, OnPath;
    FirstReturn(m, h, visited, At(m, h, []), pos - 1);
  }

  lemma SearchDone<S(!new), V>(m: Model<S, V>, h: seq<Entry<V>>, path: seq<int>, pos: int, visited: set<Config<S>>)
    requires Paired(h) && Searching(m, h, path, pos, visited) && Onward(h, path, 0) == |h| + 1
    ensures Complete(m, h, path)
  {
    hide Walking, Onward;
    StepNext(h, path, 0);
    WalkingPartial(m, h, path, pos - 1, visited);
    PartialDistinct(m, h, path);
    forall id | 0 <= id < Ops(h) ensures id in Ids(path) { assert h[CallOf(h, id)].id == id; }
    assert Ids(path) == Range(Ops(h));
  }

  // ------------------------------------------------------------- list and stack

  ghost predicate Shape<V(!new)>(h: seq<Entry<V>>, all: seq<Node<V>>) {
    Paired(h) && Listed(h, all) && Mated(h, all) && Distinct(all)
  }

  // The list is the original one minus the operations on the stack.
  ghost predicate Heap<S(!new), V(!new)>(m: Model<S, V>, h: seq<Entry<V>>, all: seq<Node<V>>, links: seq<Link<V>>,
                                         calls: seq<CallsEntry<S, V>>, path: seq<int>)
    requires Paired(h) && |all| == |h| + 1
  {
    Linked(all, links, Dead(h, Ids(path))) && Stacked(m, h, all, links, calls, path)
  }

  lemma HeapPush<S(!new), V(!new)>(m: Model<S, V>, h: seq<Entry<V>>, all: seq<Node<V>>, links: seq<Link<V>>,
                                   links': seq<Link<V>>,
                                   calls: seq<CallsEntry<S, V>>, path: seq<int>, id: int)
    requires Paired(h) && |all| == |h| + 1 && 0 <= id < Ops(h) && |links'| == |all|
    requires Heap(m, h, all, links, calls, path)
    requires var dead, a, b := Dead(h, Ids(path)), CallOf(h, id) + 1, ReturnOf(h, id) + 1;
      && Linked(all, links', dead + {a} + {b}) && Points(all, links', dead, a) && Points(all, links', dead + {a}, b)
      && forall x :: x in dead && 0 <= x < |all| ==> links'[x] == links[x]
    ensures Heap(m, h, all, links', calls + [CallsEntry(all[CallOf(h, id) + 1], After(m, h, path))], path + [id])
  {
    hide Points, After, Paired;
    var calls', path' := calls + [CallsEntry(all[CallOf(h, id) + 1], After(m, h, path))], path + [id];
    assert Ids(path') == Ids(path) + {id};
    DeadMore(h, Ids(path), id);
    StackedSame(m, h, all, links, links', calls, path, Dead(h, Ids(path)));
    assert path'[..|path|] == path && calls'[..|path|] == calls;
  }

  // What the top of the stack says about the list.
  lemma HeapTop<S(!new), V(!new)>(m: Model<S, V>, h: seq<Entry<V>>, all: seq<Node<V>>, links: seq<Link<V>>,
                                  calls: seq<CallsEntry<S, V>>, path: seq<int>)
    requires Paired(h) && |all| == |h| + 1 && Heap(m, h, all, links, calls, path) && path != []
    ensures var k := |path| - 1;
      var id, dead := path[k], Dead(h, Ids(path[..k]));
      && |calls| == |path| && 0 <= id < Ops(h)
      && calls[k] == CallsEntry(all[CallOf(h, id) + 1], After(m, h, path[..k]))
      && Linked(all, links, dead + {CallOf(h, id) + 1} + {ReturnOf(h, id) + 1})
      && Points(all, links, dead, CallOf(h, id) + 1)
      && Points(all, links, dead + {CallOf(h, id) + 1}, ReturnOf(h, id) + 1)
  {
    hide Points, After, Paired, Linked;
    var k := |path| - 1;
    DeadMore(h, Ids(path[..k]), path[k]);
    assert Ids(path) == Ids(path[..k]) + {path[k]};
  }

  lemma HeapPop<S(!new), V(!new)>(m: Model<S, V>, h: seq<Entry<V>>, all: seq<Node<V>>, links: seq<Link<V>>,
                                  links': seq<Link<V>>,
                                  calls: seq<CallsEntry<S, V>>, path: seq<int>)
    requires Paired(h) && |all| == |h| + 1 == |links| == |links'| && path != [] && Heap(m, h, all, links, calls, path)
    requires var dead := Dead(h, Ids(path[..|path| - 1]));
      && Linked(all, links', dead) && forall x :: x in dead && 0 <= x < |all| ==> links'[x] == links[x]
    ensures Heap(m, h, all, links', calls[..|calls| - 1], path[..|path| - 1])
  {
    hide Points, After, Paired;
    var k := |path| - 1;
    StackedSame(m, h, all, links, links', calls[..k], path[..k], Dead(h, Ids(path[..k])));
  }

  // ------------------------------------------------------------------ longest

  // calls is a longer linearization of each of its operations than the one on record, or is not.
  method RecordLongest<S(!new), V(!new)>(calls: seq<CallsEntry<S, V>>, longest: seq<Option<seq<int>>>,
                                         ghost path: seq<int>)
    returns (r: seq<Option<seq<int>>>)
    requires |calls| == |path| && forall i :: 0 <= i < |path| ==> calls[i].entry.id == path[i]
    requires forall x :: x in path ==> 0 <= x < |longest|
    ensures |r| == |longest|
    ensures forall id :: 0 <= id < |r| ==>
      r[id] == if id in path && (longest[id].None? || |path| > |longest[id].value|) then Some(path) else longest[id]
  {
    r := longest;
    var sequence: seq<int> := [];
    for i := 0 to |calls|
      invariant |r| == |longest| && (sequence == [] || sequence == path)
      invariant forall id :: 0 <= id < |r| ==>
        r[id] ==
          if id in path[..i] && (longest[id].None? || |path| > |longest[id].value|) then Some(path) else longest[id]
    {
      var id := calls[i].entry.id;
      assert id == path[i] && path[i] in path && path[..i + 1] == path[..i] + [id];
      if r[id].None? || |calls| > |r[id].value| {
        if sequence == [] {
          for j := 0 to |calls|
            invariant sequence == path[..j]
          {
            sequence := sequence + [calls[j].entry.id];
          }
          assert path[..|calls|] == path;
        }
        r := r[id := Some(sequence)];
      }
    }
    assert path[..|calls|] == path;
  }

  // The complete linearization is the longest one of every operation.
  method FillLongest<S(!new), V(!new)>(calls: seq<CallsEntry<S, V>>, longest: seq<Option<seq<int>>>,
                                       ghost path: seq<int>)
    returns (r: seq<Option<seq<int>>>)
    requires |calls| == |path| && forall i :: 0 <= i < |path| ==> calls[i].entry.id == path[i]
    ensures |r| == |longest| && forall id :: 0 <= id < |r| ==> r[id] == Some(path)
  {
    var sequence: seq<int> := [];
    for i := 0 to |calls|
      invariant sequence == path[..i]
    {
      sequence := sequence + [calls[i].entry.id];
    }
    assert path[..|calls|] == path;
    r := longest;
    for i := 0 to |longest|
      invariant |r| == |longest| && forall id :: 0 <= id < i ==> r[id] == Some(path)
    {
      r := r[i := Some(sequence)];
    }
  }

  // ---------------------------------------------------------------- checkSingle

  ghost predicate Linearizable<S(!new), V>(m: Model<S, V>, h: seq<Entry<V>>)
    requires Paired(h)
  {
    exists path :: Complete(m, h, path)
  }

  // Everything the loop keeps.
  ghost predicate Loop<S(!new), V(!new)>(m: Model<S, V>, h: seq<Entry<V>>, all: seq<Node<V>>, links: seq<Link<V>>,
      calls: seq<CallsEntry<S, V>>, state: S, words: seq<bv64>, cache: Cache<S>, longest: seq<Option<seq<int>>>,
      computePartial: bool, path: seq<int>, pos: int, visited: set<Config<S>>)
    requires Paired(h) && |all| == |h| + 1
  {
    && Searching(m, h, path, pos, visited)
    && Heap(m, h, all, links, calls, path)
    && state == After(m, h, path)
    && words == Bitset.Canon(Ids(path), |words|) && Ops(h) <= 64 * |words|
    && Tabled(cache, visited, |words|, Ops(h))
    && |longest| == Ops(h)
    && (computePartial ==> Recorded(m, h, path, visited, longest))
    && (!computePartial ==> forall id :: 0 <= id < |longest| ==> longest[id] == None)
  }

  lemma LoopStart<S(!new), V(!new)>(m: Model<S, V>, h: seq<Entry<V>>, nodes: seq<Node<V>>, head: Node<V>,
                                    links: seq<Link<V>>,
      words: seq<bv64>, longest: seq<Option<seq<int>>>, computePartial: bool)
    requires Paired(h) && Nodes(h, 0, nodes) && Distinct(Inserted(nodes, 0, head))
    requires Chain(Inserted(nodes, 0, head), links)
    requires words == Bitset.Canon({}, |words|) && Ops(h) <= 64 * |words|
    requires |longest| == Ops(h) && forall id :: 0 <= id < |longest| ==> longest[id] == None
    ensures Inserted(nodes, 0, head) == [head] + nodes && Shape(h, [head] + nodes)
    ensures Ref([head] + nodes, 1) == Ref(nodes, 0)
    ensures Loop(m, h, [head] + nodes, links, [], m.init, words, map[], longest, computePartial, [], 1, {At(m, h, [])})
  {
    hide Paired, Searching, Linked, Chain, Distinct, Nodes, Listed, Mated;
    assert Inserted(nodes, 0, head) == [head] + nodes;
    ListedFrom(h, nodes, head);
    NodesSize(h, nodes);
    ChainLinked([head] + nodes, links);
    assert Ids([]) == {} && Dead(h, {}) == {};
    SearchStart(m, h);
  }

  lemma LoopParts<S(!new), V(!new)>(m: Model<S, V>, h: seq<Entry<V>>, all: seq<Node<V>>, links: seq<Link<V>>,
      calls: seq<CallsEntry<S, V>>, state: S, words: seq<bv64>, cache: Cache<S>, longest: seq<Option<seq<int>>>,
      computePartial: bool, path: seq<int>, pos: int, visited: set<Config<S>>)
    requires Shape(h, all)
    requires Loop(m, h, all, links, calls, state, words, cache, longest, computePartial, path, pos, visited)
    ensures Searching(m, h, path, pos, visited) && Heap(m, h, all, links, calls, path) && Partial(m, h, path)
    ensures state == After(m, h, path) && words == Bitset.Canon(Ids(path), |words|) && Ops(h) <= 64 * |words|
    ensures Tabled(cache, visited, |words|, Ops(h)) && |longest| == Ops(h) && visited <= Universe(m, h)
    ensures computePartial ==> Recorded(m, h, path, visited, longest)
    ensures !computePartial ==> forall id :: 0 <= id < |longest| ==> longest[id] == None
    ensures Paired(h) && |all| == |h| + 1
    ensures Hashed(cache) && Distinct(all) && Linked(all, links, Dead(h, Ids(path))) && |links| == |all|
    ensures |calls| == |path| && forall i :: 0 <= i < |path| ==> calls[i].entry.id == path[i]
    ensures forall x :: x in path ==> 0 <= x < Ops(h)
  {
    hide Walking, Universe, Mated, Recorded, Holds, Points;
    SearchingPartial(m, h, path, pos, visited);
    PartialDistinct(m, h, path);
    StackedIds(m, h, all, links, calls, path);
  }

  lemma RefIn<V(!new)>(all: seq<Node<V>>, p: int)
    ensures 0 <= p < |all| ==> Ref(all, p) == all[p]
  {
  }

  // What the loop finds at entry.
  lemma LoopHere<S(!new), V(!new)>(m: Model<S, V>, h: seq<Entry<V>>, all: seq<Node<V>>, links: seq<Link<V>>,
                                   calls: seq<CallsEntry<S, V>>, path: seq<int>, pos: int, visited: set<Config<S>>)
    requires Shape(h, all) && Searching(m, h, path, pos, visited) && Heap(m, h, all, links, calls, path)
    requires links[0].next != null
    ensures 1 <= pos <= |h| && 0 <= all[pos].id < Ops(h) && all[pos].id == h[pos - 1].id && all[pos].id !in path
    ensures all[pos].partner != null <==> h[pos - 1].kind == Call
    ensures links[pos].next == Ref(all, Onward(h, path, pos))
    ensures Dead(h, Ids(path)) !! {0, pos}
  {
    hide Walking, Universe, Mated, Stacked, NextLive, PrevLive;
    var dead := Dead(h, Ids(path));
    DeadIs(h, Ids(path), 0);
    assert Points(all, links, dead, 0);
    if pos == |h| + 1 {
      StepNext(h, path, 0);
      var q := Onward(h, path, 0);
      AllDone(h, path, q);
      assert false;
    }
    DeadIs(h, Ids(path), pos);
    assert Points(all, links, dead, pos);
    assert h[pos - 1].id == all[pos].id;
  }

  lemma AllDone<V>(h: seq<Entry<V>>, path: seq<int>, q: int)
    requires Paired(h) && Standing(h, path, |h| + 1) && 1 <= q <= |h|
    ensures h[q - 1].id in path
  {
    assert h[ReturnOf(h, h[q - 1].id)].id == h[q - 1].id;
  }

  // A call: its own position, its partner's, and the model's step on the two values.
  lemma LoopCall<S(!new), V(!new)>(m: Model<S, V>, h: seq<Entry<V>>, all: seq<Node<V>>, path: seq<int>, pos: int)
    requires Shape(h, all) && 1 <= pos <= |h| && all[pos].partner != null && h[pos - 1].id !in path
    ensures h[pos - 1].kind == Call && all[pos].id == h[pos - 1].id && 0 <= h[pos - 1].id < Ops(h)
    ensures CallOf(h, h[pos - 1].id) + 1 == pos
    ensures var b := ReturnOf(h, h[pos - 1].id) + 1;
      pos < b < |all| && all[pos].partner == all[b] && b !in Dead(h, Ids(path))
    ensures all[pos].value.Some? && all[pos].partner.value.Some?
    ensures m.step(After(m, h, path), all[pos].value.value, all[pos].partner.value.value)
      == StepOp(m, h, After(m, h, path), h[pos - 1].id)
  {
    hide Paired, After;
    CallIs(h, pos - 1);
    var id := h[pos - 1].id;
    var r := ReturnOf(h, id);
    assert h[pos - 1].id == all[pos].id && h[r].id == id && h[r].value == all[r + 1].value.value;
    DeadIs(h, Ids(path), r + 1);
  }

  // The three moves, and the two ways the loop ends.
  lemma LoopSkip<S(!new), V(!new)>(m: Model<S, V>, h: seq<Entry<V>>, all: seq<Node<V>>, links: seq<Link<V>>,
      calls: seq<CallsEntry<S, V>>, state: S, words: seq<bv64>, cache: Cache<S>, longest: seq<Option<seq<int>>>,
      computePartial: bool, path: seq<int>, pos: int, visited: set<Config<S>>)
    requires Paired(h) && |all| == |h| + 1 && 1 <= pos <= |h| && h[pos - 1].kind == Call
    requires Loop(m, h, all, links, calls, state, words, cache, longest, computePartial, path, pos, visited)
    requires 0 <= h[pos - 1].id < Ops(h)
    requires StepOp(m, h, state, h[pos - 1].id).0 ==> Covered(m, visited, Child(m, h, path, h[pos - 1].id))
    ensures Loop(m, h, all, links, calls, state, words, cache, longest, computePartial, path, Onward(h, path, pos),
                 visited)
    ensures pos < Onward(h, path, pos) <= |h| + 1
  {
    hide Searching, Heap, Tabled, Recorded, Covered, StepOp, Onward;
    SearchSkip(m, h, path, pos, visited);
    StepNext(h, path, pos);
  }

  // The table answers for the visited configurations.
  lemma LoopSeen<S(!new), V(!new)>(m: Model<S, V>, h: seq<Entry<V>>, words: seq<bv64>, cache: Cache<S>,
                                   path: seq<int>, visited: set<Config<S>>, id: int)
    requires Paired(h) && Partial(m, h, path) && 0 <= id < Ops(h) <= 64 * |words|
    requires Tabled(cache, visited, |words|, Ops(h))
    ensures Child(m, h, path, id) == Config(Ids(path) + {id}, StepOp(m, h, After(m, h, path), id).1)
    ensures Fits(Child(m, h, path, id).done, Ops(h)) && Child(m, h, path, id).done != {}
    ensures Covered(m, visited, Child(m, h, path, id)) <==>
      exists e :: Holds(cache, e) && e.words == Bitset.Canon(Ids(path) + {id}, |words|)
        && m.equal(StepOp(m, h, After(m, h, path), id).1, e.state)
  {
    hide Tabled, Holds, Bitset.Canon, StepOp, Covered, Partial, Paired;
    PartialDistinct(m, h, path);
    TabledCovers(m, cache, visited, |words|, Ops(h), Child(m, h, path, id));
  }

  lemma LoopPush<S(!new), V(!new)>(m: Model<S, V>, h: seq<Entry<V>>, all: seq<Node<V>>, links: seq<Link<V>>,
                                   links': seq<Link<V>>,
      calls: seq<CallsEntry<S, V>>, state: S, words: seq<bv64>, words': seq<bv64>, cache: Cache<S>, cache': Cache<S>,
      longest: seq<Option<seq<int>>>, computePartial: bool, path: seq<int>, pos: int, visited: set<Config<S>>)
    requires Paired(h) && Reflexive(m) && |all| == |h| + 1 == |links'| && 1 <= pos <= |h| && h[pos - 1].kind == Call
    requires Loop(m, h, all, links, calls, state, words, cache, longest, computePartial, path, pos, visited)
    requires 0 <= h[pos - 1].id < Ops(h) && CallOf(h, h[pos - 1].id) + 1 == pos
    requires StepOp(m, h, state, h[pos - 1].id).0 && !Covered(m, visited, Child(m, h, path, h[pos - 1].id))
    requires words' == Bitset.Canon(Ids(path) + {h[pos - 1].id}, |words|)
    requires Tabled(cache', visited + {Child(m, h, path, h[pos - 1].id)}, |words|, Ops(h))
    requires var dead, b := Dead(h, Ids(path)), ReturnOf(h, h[pos - 1].id) + 1;
      && Linked(all, links', dead + {pos} + {b}) && Points(all, links', dead, pos)
      && Points(all, links', dead + {pos}, b)
      && |links| == |all| && forall x :: x in dead && 0 <= x < |all| ==> links'[x] == links[x]
    ensures var id := h[pos - 1].id; var path', c := path + [id], Child(m, h, path, id);
      && Loop(m, h, all, links', calls + [CallsEntry(all[pos], state)], StepOp(m, h, state, id).1, words', cache',
              longest,
              computePartial, path', Onward(h, path', 0), visited + {c})
      && links'[0].next == Ref(all, Onward(h, path', 0))
      && c !in visited && c in Universe(m, h)
  {
    hide Searching, Tabled, Recorded, Covered, StepOp, Onward, Universe, Points, Linked, Bitset.Canon, Stacked, Paired;
    var id := h[pos - 1].id;
    var path' := path + [id];
    SearchPush(m, h, path, pos, visited);
    HeapPush(m, h, all, links, links', calls, path, id);
    if computePartial { RecordedPush(m, h, path, visited, longest, id); }
    SameIds(m, h, path, id);
    HeadNext(h, all, links', path');
  }

  lemma SameIds<S(!new), V(!new)>(m: Model<S, V>, h: seq<Entry<V>>, path: seq<int>, id: int)
    requires Paired(h) && 0 <= id < Ops(h)
    ensures Ids(path + [id]) == Ids(path) + {id}
    ensures After(m, h, path + [id]) == StepOp(m, h, After(m, h, path), id).1
  {
    assert (path + [id])[..|path|] == path;
  }

  lemma HeadNext<V(!new)>(h: seq<Entry<V>>, all: seq<Node<V>>, links: seq<Link<V>>, path: seq<int>)
    requires |all| == |h| + 1 && Linked(all, links, Dead(h, Ids(path)))
    ensures |links| == |all| && links[0].next == Ref(all, Onward(h, path, 0))
  {
    DeadIs(h, Ids(path), 0);
    assert Points(all, links, Dead(h, Ids(path)), 0);
  }

  lemma LoopPop<S(!new), V(!new)>(m: Model<S, V>, h: seq<Entry<V>>, all: seq<Node<V>>, links: seq<Link<V>>,
                                  links': seq<Link<V>>,
      calls: seq<CallsEntry<S, V>>, state: S, words: seq<bv64>, words': seq<bv64>, cache: Cache<S>,
      longest: seq<Option<seq<int>>>, longest': seq<Option<seq<int>>>,
      computePartial: bool, path: seq<int>, pos: int, visited: set<Config<S>>)
    requires Paired(h) && |all| == |h| + 1 == |links| == |links'| && 1 <= pos <= |h| && h[pos - 1].kind == Return
    requires path != []
    requires Loop(m, h, all, links, calls, state, words, cache, longest, computePartial, path, pos, visited)
    requires 0 <= path[|path| - 1] < Ops(h)
    requires words' == Bitset.Canon(Ids(path) - {path[|path| - 1]}, |words|)
    requires |longest'| == |longest| && (!computePartial ==> longest' == longest)
    requires computePartial ==> forall id :: 0 <= id < |longest| ==>
      longest'[id] ==
        if id in path && (longest[id].None? || |path| > |longest[id].value|) then Some(path) else longest[id]
    requires var dead := Dead(h, Ids(path[..|path| - 1]));
      && Linked(all, links', dead) && forall x :: x in dead && 0 <= x < |all| ==> links'[x] == links[x]
    ensures var p, at := path[..|path| - 1], CallOf(h, path[|path| - 1]) + 1;
      && Loop(m, h, all, links', calls[..|calls| - 1], After(m, h, p), words', cache, longest', computePartial,
              p, Onward(h, p, at), visited)
      && links'[at].next == Ref(all, Onward(h, p, at))
  {
    hide Searching, Tabled, Recorded, Onward, Linked, Bitset.Canon, Stacked, Paired, NextLive;
    var k := |path| - 1;
    var p, id := path[..k], path[k];
    SearchPop(m, h, path, pos, visited);
    HeapPop(m, h, all, links, links', calls, path);
    SearchingPartial(m, h, path, pos, visited);
    PoppedIds(m, h, path);
    if computePartial { RecordedPop(m, h, path, visited, longest, longest'); }
    CallNext(h, all, links', p, id);
  }

  lemma SearchingPartial<S(!new), V(!new)>(m: Model<S, V>, h: seq<Entry<V>>, path: seq<int>, pos: int,
                                           visited: set<Config<S>>)
    requires Paired(h) && Searching(m, h, path, pos, visited)
    ensures Partial(m, h, path)
  {
    WalkingPartial(m, h, path, pos - 1, visited);
  }

  lemma PoppedIds<S(!new), V(!new)>(m: Model<S, V>, h: seq<Entry<V>>, path: seq<int>)
    requires Paired(h) && Partial(m, h, path) && path != []
    ensures Ids(path) - {path[|path| - 1]} == Ids(path[..|path| - 1])
    ensures path[|path| - 1] !in path[..|path| - 1]
  {
    assert path == path[..|path| - 1] + [path[|path| - 1]];
  }

  lemma CallNext<V(!new)>(h: seq<Entry<V>>, all: seq<Node<V>>, links: seq<Link<V>>, path: seq<int>, id: int)
    requires Paired(h) && |all| == |h| + 1 && Linked(all, links, Dead(h, Ids(path))) && 0 <= id < Ops(h) && id !in path
    ensures |links| == |all| && links[CallOf(h, id) + 1].next == Ref(all, Onward(h, path, CallOf(h, id) + 1))
  {
    DeadIs(h, Ids(path), CallOf(h, id) + 1);
    assert Points(all, links, Dead(h, Ids(path)), CallOf(h, id) + 1);
  }

  lemma LoopEnd<S(!new), V(!new)>(m: Model<S, V>, h: seq<Entry<V>>, longest: seq<Option<seq<int>>>,
                                  computePartial: bool, pos: int, visited: set<Config<S>>)
    requires Paired(h) && Congruent(m) && Searching(m, h, [], pos, visited) && pos <= |h| && h[pos - 1].kind == Return
    requires computePartial ==> Recorded(m, h, [], visited, longest)
    ensures !Linearizable(m, h)
    ensures computePartial ==> |longest| == Ops(h) && forall id :: 0 <= id < Ops(h) ==> Longest(m, h, id, longest[id])
  {
    SearchEnd(m, h, pos, visited);
    hide Congruent, Walking, Paired, Searching, Recorded, Longest;
    forall path ensures !Complete(m, h, path) { Exhausted(m, h, visited, path); }
    if computePartial {
      assert |longest| == Ops(h) by { RecordedSize(m, h, visited, longest); }
      forall id | 0 <= id < Ops(h) ensures Longest(m, h, id, longest[id]) {
        RecordedIsLongest(m, h, visited, longest, id);
      }
    }
  }

  lemma RecordedSize<S(!new), V(!new)>(m: Model<S, V>, h: seq<Entry<V>>, visited: set<Config<S>>,
                                       longest: seq<Option<seq<int>>>)
    requires Paired(h) && Recorded(m, h, [], visited, longest)
    ensures |longest| == Ops(h)
  {
  }

  lemma LoopDone<S(!new), V(!new)>(m: Model<S, V>, h: seq<Entry<V>>, all: seq<Node<V>>, links: seq<Link<V>>,
                                   calls: seq<CallsEntry<S, V>>, path: seq<int>, pos: int, visited: set<Config<S>>)
    requires Shape(h, all) && Searching(m, h, path, pos, visited) && Heap(m, h, all, links, calls, path)
    requires links[0].next == null
    ensures Complete(m, h, path) && Linearizable(m, h)
    ensures |calls| == |path| && forall i :: 0 <= i < |path| ==> calls[i].entry.id == path[i]
  {
    hide Searching, Complete, Mated, Stacked, Onward, Paired;
    HeadNext(h, all, links, path);
    StepNext(h, path, 0);
    SearchDone(m, h, path, pos, visited);
    StackedIds(m, h, all, links, calls, path);
  }

  lemma LoopTop<S(!new), V(!new)>(m: Model<S, V>, h: seq<Entry<V>>, all: seq<Node<V>>, path: seq<int>)
    requires Shape(h, all) && Partial(m, h, path) && path != [] && 0 <= path[|path| - 1] < Ops(h)
    ensures var id, dead := path[|path| - 1], Dead(h, Ids(path[..|path| - 1]));
      && dead !! {0, CallOf(h, id) + 1, ReturnOf(h, id) + 1}
      && all[CallOf(h, id) + 1].id == id && all[CallOf(h, id) + 1].partner == all[ReturnOf(h, id) + 1]
  {
    hide Paired;
    PoppedIds(m, h, path);
    var id, below := path[|path| - 1], Ids(path[..|path| - 1]);
    DeadIs(h, below, 0);
    DeadIs(h, below, CallOf(h, id) + 1);
    DeadIs(h, below, ReturnOf(h, id) + 1);
  }

  // Commits to the call at entry: a new table entry, a longer stack, a shorter list.
  method Descend<S(!new), V(!new)>(m: Model<S, V>, h: seq<Entry<V>>, entry: Node<V>, state: S, newState: S,
      newLinearized: array<bv64>, linearized: array<bv64>, cache: Cache<S>, calls: seq<CallsEntry<S, V>>,
      ghost longest: seq<Option<seq<int>>>, ghost computePartial: bool,
      ghost all: seq<Node<V>>, ghost path: seq<int>, ghost pos: int, ghost visited: set<Config<S>>)
    returns (cache': Cache<S>, calls': seq<CallsEntry<S, V>>)
    requires Shape(h, all) && Reflexive(m) && 1 <= pos <= |h| && all[pos] == entry && entry.partner != null
    requires Loop(m, h, all, Links(all), calls, state, linearized[..], cache, longest, computePartial, path, pos,
                  visited)
    requires Links(all)[0].next != null && 0 <= entry.id < Ops(h) && StepOp(m, h, state, entry.id) == (true, newState)
    requires newLinearized[..] == Bitset.Canon(Ids(path) + {entry.id}, linearized.Length)
    requires !Covered(m, visited, Child(m, h, path, entry.id))
    modifies all, linearized
    ensures var path', c := path + [entry.id], Child(m, h, path, entry.id);
      && Loop(m, h, all, Links(all), calls', newState, linearized[..], cache', longest, computePartial,
              path', Onward(h, path', 0), visited + {c})
      && Links(all)[0].next == Ref(all, Onward(h, path', 0))
      && c !in visited && c in Universe(m, h)
  {
    hide *;
    ghost var links, words, id := Links(all), linearized[..], entry.id;
    LoopParts(m, h, all, links, calls, state, words, cache, longest, computePartial, path, pos, visited);
    LoopHere(m, h, all, links, calls, path, pos, visited);
    LoopCall(m, h, all, path, pos);
    LoopSeen(m, h, words, cache, path, visited, id);
    cache' := CacheAdd(cache, newLinearized, newState);
    KeyIs(Child(m, h, path, id), |words|);
    TabledMore(cache, cache', visited, |words|, Ops(h), Child(m, h, path, id));
    calls' := calls + [CallsEntry(entry, state)];
    Bitset.Set(linearized, entry.id, Ids(path));
    Lift(entry, all, Dead(h, Ids(path)), pos, ReturnOf(h, id) + 1);
    LoopPush(m, h, all, links, Links(all), calls, state, words, linearized[..], cache, cache', longest,
             computePartial, path, pos, visited);
  }

  lemma KeyIs<S>(c: Config<S>, len: nat)
    ensures Key(c, len) == CacheEntry(Bitset.Canon(c.done, len), c.state)
  {
  }

  // Takes back the last call: the stack, the state, the bitset and the list are as before it.
  method Retreat<S(!new), V(!new)>(m: Model<S, V>, h: seq<Entry<V>>, calls: seq<CallsEntry<S, V>>,
                                   linearized: array<bv64>,
      longest: seq<Option<seq<int>>>, computePartial: bool, ghost state: S, ghost cache: Cache<S>,
      ghost all: seq<Node<V>>, ghost path: seq<int>, ghost pos: int, ghost visited: set<Config<S>>)
    returns (entry: Node<V>, state': S, calls': seq<CallsEntry<S, V>>, longest': seq<Option<seq<int>>>)
    requires Shape(h, all) && 1 <= pos <= |h| && h[pos - 1].kind == Return && path != []
    requires Loop(m, h, all, Links(all), calls, state, linearized[..], cache, longest, computePartial, path, pos,
                  visited)
    modifies all, linearized
    ensures 0 <= path[|path| - 1] < Ops(h)
    ensures var p, at := path[..|path| - 1], CallOf(h, path[|path| - 1]) + 1;
      && Loop(m, h, all, Links(all), calls', state', linearized[..], cache, longest', computePartial, p, Onward(h, p,
              at), visited)
      && entry.next == Ref(all, Onward(h, p, at))
  {
    hide *;
    ghost var links, words := Links(all), linearized[..];
    LoopParts(m, h, all, links, calls, state, words, cache, longest, computePartial, path, pos, visited);
    HeapTop(m, h, all, links, calls, path);
    LoopTop(m, h, all, path);
    longest' := longest;
    if computePartial {
      longest' := RecordLongest(calls, longest, path);
    }
    var callsTop := calls[|calls| - 1];
    entry, state' := callsTop.entry, callsTop.state;
    ghost var p, top := path[..|path| - 1], path[|path| - 1];
    Bitset.Clear(linearized, entry.id, Ids(path));
    calls' := calls[..|calls| - 1];
    Unlift(entry, all, Dead(h, Ids(p)), CallOf(h, top) + 1, ReturnOf(h, top) + 1);
    LoopPop(m, h, all, links, Links(all), calls, state, words, linearized[..], cache, longest, longest',
            computePartial, path, pos, visited);
  }

  lemma FewerLeft<T>(universe: set<T>, visited: set<T>, c: T)
    requires c in universe && c !in visited
    ensures |universe - (visited + {c})| < |universe - visited|
  {
    assert universe - visited == (universe - (visited + {c})) + {c};
  }

  // A call: either on from the configuration it leads to, if that is new, or past it.
  method TryCall<S(!new), V(!new)>(m: Model<S, V>, h: seq<Entry<V>>, headEntry: Node<V>, entry: Node<V>, state: S,
      linearized: array<bv64>, cache: Cache<S>, calls: seq<CallsEntry<S, V>>,
      ghost longest: seq<Option<seq<int>>>, ghost computePartial: bool,
      ghost all: seq<Node<V>>, ghost path: seq<int>, ghost pos: int, ghost visited: set<Config<S>>)
    returns (entry': Node?<V>, state': S, cache': Cache<S>, calls': seq<CallsEntry<S, V>>,
             ghost path': seq<int>, ghost pos': int, ghost visited': set<Config<S>>)
    requires Shape(h, all) && Reflexive(m) && 1 <= pos <= |h| && all[0] == headEntry && all[pos] == entry
    requires entry.partner != null
    requires Loop(m, h, all, Links(all), calls, state, linearized[..], cache, longest, computePartial, path, pos,
                  visited)
    requires headEntry.next != null
    modifies all, linearized
    ensures Loop(m, h, all, Links(all), calls', state', linearized[..], cache', longest, computePartial, path', pos',
                 visited')
    ensures entry' == Ref(all, pos')
    ensures (visited' == visited && path' == path && pos < pos' <= |h| + 1)
      || |Universe(m, h) - visited'| < |Universe(m, h) - visited|
  {
    hide *;
    ghost var links, words, id := Links(all), linearized[..], entry.id;
    LoopParts(m, h, all, links, calls, state, words, cache, longest, computePartial, path, pos, visited);
    LoopHere(m, h, all, links, calls, path, pos, visited);
    LoopCall(m, h, all, path, pos);
    LoopSeen(m, h, words, cache, path, visited, id);
    state', cache', calls', path', pos', visited' := state, cache, calls, path, Onward(h, path, pos), visited;
    var (accepted, newState) := m.step(state, entry.value.value, entry.partner.value.value);
    if accepted {
      var newLinearized := Bitset.Clone(linearized);
      Bitset.Set(newLinearized, entry.id, Ids(path));
      var seen := CacheContains(m, cache, newLinearized, newState);
      if !seen {
        cache', calls' := Descend(m, h, entry, state, newState, newLinearized, linearized, cache, calls, longest,
                                  computePartial, all, path, pos, visited);
        state' := newState;
        entry' := headEntry.next;
        FewerLeft(Universe(m, h), visited, Child(m, h, path, id));
        path', visited' := path + [id], visited + {Child(m, h, path, id)};
        pos' := Onward(h, path', 0);
        return;
      }
    }
    entry' := entry.next;
    LoopSkip(m, h, all, links, calls, state, words, cache, longest, computePartial, path, pos, visited);
  }

  lemma RecordedWitness<S(!new), V(!new)>(m: Model<S, V>, h: seq<Entry<V>>, path: seq<int>, visited: set<Config<S>>,
                                           longest: seq<Option<seq<int>>>)
    requires Paired(h) && Recorded(m, h, path, visited, longest)
    ensures |longest| == Ops(h) && forall id :: 0 <= id < Ops(h) ==> Witness(m, h, id, longest[id])
  {
  }

  // The list with its sentinel, an empty bitset, and nothing on record.
  method Prepare<S(!new), V(!new)>(m: Model<S, V>, h: seq<Entry<V>>, ghost computePartial: bool)
    returns (headEntry: Node<V>, entry: Node?<V>, linearized: array<bv64>, longest: seq<Option<seq<int>>>,
             ghost all: seq<Node<V>>)
    requires Paired(h)
    ensures fresh(all) && fresh(linearized) && Shape(h, all) && |all| == |h| + 1 && all[0] == headEntry
    ensures entry == Ref(all, 1)
    ensures Loop(m, h, all, Links(all), [], m.init, linearized[..], map[], longest, computePartial, [], 1, {At(m, h,
                 [])})
  {
    hide *;
    var first, nodes := MakeLinkedEntries(h);
    var len := Length(first, nodes);
    var n := len / 2;
    linearized := Bitset.NewBitset(n);
    longest := seq(n, _ => None);
    var sentinel := new Node(None, null, -1);
    NodesSize(h, nodes);
    headEntry := InsertBefore(sentinel, first, nodes, 0);
    entry := first;
    all := Inserted(nodes, 0, sentinel);
    LoopStart(m, h, nodes, headEntry, Links(all), linearized[..], longest, computePartial);
  }

  // For any reflexive comparison of states the search ends and its answers are sound; for one
  // that no operation can tell apart it also misses nothing.
  method CheckSingle<S(!new), V(!new)>(m: Model<S, V>, h: seq<Entry<V>>, computePartial: bool)
    returns (ok: bool, longest: seq<Option<seq<int>>>)
    requires Paired(h) && Reflexive(m)
    ensures ok ==> Linearizable(m, h)
    ensures Congruent(m) && Linearizable(m, h) ==> ok
    ensures |longest| == Ops(h)
    ensures ok ==> forall id :: 0 <= id < Ops(h) ==> longest[id].Some? && Complete(m, h, longest[id].value)
    ensures !ok && !computePartial ==> forall id :: 0 <= id < Ops(h) ==> longest[id] == None
    ensures !ok && computePartial ==> forall id :: 0 <= id < Ops(h) ==> Witness(m, h, id, longest[id])
    ensures !ok && computePartial && Congruent(m) ==> forall id :: 0 <= id < Ops(h) ==> Longest(m, h, id, longest[id])
  {
    hide *;
    var headEntry, first, linearized, none, all := Prepare(m, h, computePartial);
    var entry := first;
    longest := none;
    var state, cache, calls := m.init, map[], [];
    ghost var path, pos, visited := [], 1, {At(m, h, [])};
    while headEntry.next != null
      invariant Loop(m, h, all, Links(all), calls, state, linearized[..], cache, longest, computePartial, path, pos,
                     visited)
      invariant entry == Ref(all, pos)
      decreases |Universe(m, h) - visited|, |path|, |h| + 1 - pos
    {
      ghost var links, words := Links(all), linearized[..];
      LoopParts(m, h, all, links, calls, state, words, cache, longest, computePartial, path, pos, visited);
      LoopHere(m, h, all, links, calls, path, pos, visited);
      RefIn(all, pos);
      if entry.partner != null {
        entry, state, cache, calls, path, pos, visited :=
          TryCall(m, h, headEntry, entry, state, linearized, cache, calls, longest, computePartial, all, path, pos,
                  visited);
      } else {
        if |calls| == 0 {
          if Congruent(m) { LoopEnd(m, h, longest, computePartial, pos, visited); }
          if computePartial { RecordedWitness(m, h, path, visited, longest); }
          return false, longest;
        }
        ghost var p, top := path[..|path| - 1], path[|path| - 1];
        entry, state, calls, longest := Retreat(m, h, calls, linearized, longest, computePartial, state, cache,
                                                all, path, pos, visited);
        path := p;
        entry := entry.next;
        pos := Onward(h, path, CallOf(h, top) + 1);
      }
    }
    LoopParts(m, h, all, Links(all), calls, state, linearized[..], cache, longest, computePartial, path, pos, visited);
    LoopDone(m, h, all, Links(all), calls, path, pos, visited);
    longest := FillLongest(calls, longest, path);
    return true, longest;
  }
}
