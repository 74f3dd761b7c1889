/**
  The search that decides linearizability, seen from above: a depth-first walk over
  configurations (operations done, state reached) with a table of visited ones.
 */
module Search {
  import opened Wrappers
  import opened Linearizability

  datatype Config<S> = Config(done: set<int>, state: S)

  ghost function At<S(!new), V>(m: Model<S, V>, h: seq<Entry<V>>, path: seq<int>): Config<S>
    requires Paired(h)
  {
    Config(Ids(path), After(m, h, path))
  }

  ghost predicate Covered<S(!new), V>(m: Model<S, V>, visited: set<Config<S>>, c: Config<S>) {
    exists v :: v in visited && v.done == c.done && m.equal(c.state, v.state)
  }

  ghost function Next<S(!new), V>(m: Model<S, V>, h: seq<Entry<V>>, c: Config<S>, id: int): Config<S>
    requires Paired(h) && 0 <= id < Ops(h)
  {
    Config(c.done + {id}, StepOp(m, h, c.state, id).1)
  }

  // Every way on from c through an operation called before `bound` leads to a visited configuration.
  ghost predicate DoneBelow<S(!new), V>(m: Model<S, V>, h: seq<Entry<V>>, visited: set<Config<S>>, c: Config<S>,
                                        bound: int)
    requires Paired(h)
  {
    forall id :: Minimal(h, c.done, id) && CallOf(h, id) < bound && StepOp(m, h, c.state, id).0 ==>
      Covered(m, visited, Next(m, h, c, id))
  }

  ghost predicate OnPath<S(!new), V>(m: Model<S, V>, h: seq<Entry<V>>, path: seq<int>, c: Config<S>)
    requires Paired(h)
  {
    c == At(m, h, path) || (path != [] && OnPath(m, h, path[..|path| - 1], c))
  }

  // The configurations along the path are visited, and at each of them everything up to
  // the operation taken has been tried.
  ghost predicate Trail<S(!new), V>(m: Model<S, V>, h: seq<Entry<V>>, path: seq<int>, visited: set<Config<S>>)
    requires Paired(h)
  {
    && At(m, h, path) in visited
    && (path != [] ==>
          var k := |path| - 1;
          && 0 <= path[k] < Ops(h)
          && DoneBelow(m, h, visited, At(m, h, path[..k]), CallOf(h, path[k]) + 1)
          && Trail(m, h, path[..k], visited))
  }

  // The walk stands at the end of `path`, and has tried there what was called before `bound`.
  ghost predicate Walking<S(!new), V>(m: Model<S, V>, h: seq<Entry<V>>, path: seq<int>, bound: int,
                                      visited: set<Config<S>>)
    requires Paired(h)
  {
    && Partial(m, h, path)
    && Trail(m, h, path, visited)
    && DoneBelow(m, h, visited, At(m, h, path), bound)
    && (forall c :: c in visited ==> OnPath(m, h, path, c) || DoneBelow(m, h, visited, c, |h|))
    && (forall c :: c in visited && |c.done| == Ops(h) ==> |path| == Ops(h))
  }

  // ---------------------------------------------------------------- the moves

  lemma CoveredMore<S(!new), V>(m: Model<S, V>, visited: set<Config<S>>, more: set<Config<S>>, c: Config<S>)
    requires Covered(m, visited, c) && visited <= more
    ensures Covered(m, more, c)
  {
  }

  lemma DoneMore<S(!new), V>(m: Model<S, V>, h: seq<Entry<V>>, visited: set<Config<S>>, more: set<Config<S>>,
                             c: Config<S>, bound: int)
    requires Paired(h) && DoneBelow(m, h, visited, c, bound) && visited <= more
    ensures DoneBelow(m, h, more, c, bound)
  {
    forall id | Minimal(h, c.done, id) && CallOf(h, id) < bound && StepOp(m, h, c.state, id).0
      ensures Covered(m, more, Next(m, h, c, id))
    {
      CoveredMore(m, visited, more, Next(m, h, c, id));
    }
  }

  lemma Started<S(!new), V>(m: Model<S, V>, h: seq<Entry<V>>)
    requires Paired(h)
    ensures Walking(m, h, [], 0, {At(m, h, [])})
  {
    assert At(m, h, []).done == {};
  }

  // The operation called at `bound` leads nowhere new; on to the next one that is not done.
  lemma Skipped<S(!new), V>(m: Model<S, V>, h: seq<Entry<V>>, path: seq<int>, bound: int, visited: set<Config<S>>,
                            id: int, bound': int)
    requires Paired(h) && Walking(m, h, path, bound, visited)
    requires 0 <= id < Ops(h) && CallOf(h, id) == bound
    requires StepOp(m, h, After(m, h, path), id).0 ==> Covered(m, visited, Next(m, h, At(m, h, path), id))
    requires forall x :: 0 <= x < Ops(h) && bound < CallOf(h, x) < bound' ==> x in Ids(path)
    ensures Walking(m, h, path, bound', visited)
  {
    var c := At(m, h, path);
    forall x | Minimal(h, c.done, x) && CallOf(h, x) < bound' && StepOp(m, h, c.state, x).0
      ensures Covered(m, visited, Next(m, h, c, x))
    {
      if CallOf(h, x) == bound { assert x == id; }
    }
  }

  lemma {:induction false} TrailMore<S(!new), V>(m: Model<S, V>, h: seq<Entry<V>>, path: seq<int>,
                                                 visited: set<Config<S>>, more: set<Config<S>>)
    requires Paired(h) && Trail(m, h, path, visited) && visited <= more
    ensures Trail(m, h, path, more)
    decreases |path|
  {
    if path != [] {
      var k := |path| - 1;
      DoneMore(m, h, visited, more, At(m, h, path[..k]), CallOf(h, path[k]) + 1);
      TrailMore(m, h, path[..k], visited, more);
    }
  }

  lemma MinimalRange<V>(h: seq<Entry<V>>, done: set<int>, id: int)
    requires Paired(h) && Minimal(h, done, id)
    ensures 0 <= id < Ops(h) && id !in done
  {
  }

  // Nothing not done is called below the bound.
  lemma NothingBelow<S(!new), V>(m: Model<S, V>, h: seq<Entry<V>>, visited: set<Config<S>>, c: Config<S>, bound: int)
    requires Paired(h) && forall x :: 0 <= x < Ops(h) && CallOf(h, x) < bound ==> x in c.done
    ensures DoneBelow(m, h, visited, c, bound)
  {
  }

  // A new configuration: the walk goes on from there, at the first call not done.
  lemma Pushed<S(!new), V>(m: Model<S, V>, h: seq<Entry<V>>, path: seq<int>, bound: int, visited: set<Config<S>>,
                           id: int, bound': int)
    requires Paired(h) && Reflexive(m) && Walking(m, h, path, bound, visited)
    requires Minimal(h, Ids(path), id) && CallOf(h, id) == bound && StepOp(m, h, After(m, h, path), id).0
    requires forall x :: 0 <= x < Ops(h) && CallOf(h, x) < bound' ==> x in Ids(path) || x == id
    ensures Walking(m, h, path + [id], bound', visited + {Next(m, h, At(m, h, path), id)})
    ensures At(m, h, path + [id]) == Next(m, h, At(m, h, path), id)
  {
    hide Partial, Minimal, StepOp, DoneBelow, CallOf, Paired;
    MinimalRange(h, Ids(path), id);
    var path', c := path + [id], Next(m, h, At(m, h, path), id);
    var visited' := visited + {c};
    Extend(m, h, path, id);
    assert path'[..|path|] == path;
    assert At(m, h, path') == c;
    NothingBelow(m, h, visited', c, bound');
    PushedFull(m, h, path, bound, visited, id);
    PushedParent(m, h, path, bound, visited, id);
    TrailMore(m, h, path, visited, visited');
    hide At, Next, Ids;
    forall x | x in visited' ensures OnPath(m, h, path', x) || DoneBelow(m, h, visited', x, |h|) {
      if x != c && !OnPath(m, h, path, x) { DoneMore(m, h, visited, visited', x, |h|); }
    }
  }

  ghost predicate Reflexive<S(!new), V>(m: Model<S, V>) {
    forall a: S :: m.equal(a, a)
  }

  lemma PushedParent<S(!new), V>(m: Model<S, V>, h: seq<Entry<V>>, path: seq<int>, bound: int,
                                 visited: set<Config<S>>, id: int)
    requires Paired(h) && Reflexive(m) && DoneBelow(m, h, visited, At(m, h, path), bound)
    requires Minimal(h, Ids(path), id) && CallOf(h, id) == bound
    ensures DoneBelow(m, h, visited + {Next(m, h, At(m, h, path), id)}, At(m, h, path), bound + 1)
  {
    var p := At(m, h, path);
    var visited' := visited + {Next(m, h, p, id)};
    DoneMore(m, h, visited, visited', p, bound);
    forall x | Minimal(h, p.done, x) && CallOf(h, x) < bound + 1 && StepOp(m, h, p.state, x).0
      ensures Covered(m, visited', Next(m, h, p, x))
    {
      if CallOf(h, x) == bound { assert x == id; }
    }
  }

  // No configuration below the new one was complete.
  lemma PushedFull<S(!new), V>(m: Model<S, V>, h: seq<Entry<V>>, path: seq<int>, bound: int, visited: set<Config<S>>,
                               id: int)
    requires Paired(h) && Walking(m, h, path, bound, visited) && Minimal(h, Ids(path), id)
    requires StepOp(m, h, After(m, h, path), id).0
    ensures forall c :: c in visited + {Next(m, h, At(m, h, path), id)} && |c.done| == Ops(h) ==> |path| + 1 == Ops(h)
  {
    PartialDistinct(m, h, path);
    assert |path| < Ops(h) by { IdsBelow(Ids(path) + {id}, Ops(h)); }
  }

  ghost function Range(n: nat): (r: set<int>)
    ensures forall x :: x in r <==> 0 <= x < n
    ensures |r| == n
  {
    if n == 0 then {} else Range(n - 1) + {n - 1}
  }

  lemma IdsBelow(s: set<int>, n: nat)
    requires forall x :: x in s ==> 0 <= x < n
    ensures |s| <= n && (|s| == n ==> s == Range(n))
  {
    assert s <= Range(n);
    assert Range(n) == s + (Range(n) - s);
  }

  // At the first return of an operation not done, nothing is left to try.
  lemma FirstReturn<S(!new), V>(m: Model<S, V>, h: seq<Entry<V>>, visited: set<Config<S>>, c: Config<S>, bound: nat)
    requires Paired(h) && DoneBelow(m, h, visited, c, bound)
    requires bound < |h| && h[bound].kind == Return && h[bound].id !in c.done
    ensures DoneBelow(m, h, visited, c, |h|)
  {
    assert forall id :: Minimal(h, c.done, id) && StepOp(m, h, c.state, id).0 ==> CallOf(h, id) < bound;
  }

  // The end of the path is exhausted: back to its parent, past the operation that led here.
  lemma Popped<S(!new), V>(m: Model<S, V>, h: seq<Entry<V>>, path: seq<int>, bound: nat, visited: set<Config<S>>,
                           bound': int)
    requires Paired(h) && Walking(m, h, path, bound, visited) && path != []
    requires bound < |h| && h[bound].kind == Return && h[bound].id !in Ids(path)
    requires var p, id := path[..|path| - 1], path[|path| - 1];
      forall x :: 0 <= x < Ops(h) && CallOf(h, id) < CallOf(h, x) < bound' ==> x in Ids(p)
    ensures Walking(m, h, path[..|path| - 1], bound', visited)
  {
    var last := |path| - 1;
    var p, id := path[..last], path[last];
    assert |path| < Ops(h) by {
      PartialDistinct(m, h, path);
      IdsBelow(Ids(path), Ops(h));
    }
    FirstReturn(m, h, visited, At(m, h, path), bound);
    Gap(m, h, visited, At(m, h, p), CallOf(h, id) + 1, bound');
    hide DoneBelow, At, Minimal, Covered;
  }

  lemma Gap<S(!new), V>(m: Model<S, V>, h: seq<Entry<V>>, visited: set<Config<S>>, c: Config<S>, bound: int,
                        bound': int)
    requires Paired(h) && DoneBelow(m, h, visited, c, bound)
    requires forall x :: 0 <= x < Ops(h) && bound <= CallOf(h, x) < bound' ==> x in c.done
    ensures DoneBelow(m, h, visited, c, bound')
  {
  }

  // -------------------------------------------------------------- completeness

  lemma EqualTrans<S(!new), V(!new)>(m: Model<S, V>, a: S, b: S, c: S)
    requires Congruent(m)
    ensures m.equal(a, a)
    ensures m.equal(a, b) && m.equal(b, c) ==> m.equal(a, c)
  {
  }

  // One more operation from a covered configuration is covered.
  lemma CoveredNext<S(!new), V(!new)>(m: Model<S, V>, h: seq<Entry<V>>, visited: set<Config<S>>, c: Config<S>, id: int)
    requires Paired(h) && Congruent(m) && Walking(m, h, [], |h|, visited) && Covered(m, visited, c)
    requires Minimal(h, c.done, id) && StepOp(m, h, c.state, id).0
    ensures Covered(m, visited, Next(m, h, c, id))
  {
    hide Congruent, Walking, Paired;
    var v :| v in visited && v.done == c.done && m.equal(c.state, v.state);
    VisitedClosed(m, h, visited, v);
    CongruentStep(m, h, c.state, v.state, id);
    assert Covered(m, visited, Next(m, h, v, id));
    hide DoneBelow, StepOp, Minimal;
    var u :| u in visited && u.done == v.done + {id} && m.equal(StepOp(m, h, v.state, id).1, u.state);
    EqualTrans(m, StepOp(m, h, c.state, id).1, StepOp(m, h, v.state, id).1, u.state);
  }

  // A walk that is back at the start with nothing left has covered every partial linearization.
  lemma {:induction false} AllCovered<S(!new), V(!new)>(m: Model<S, V>, h: seq<Entry<V>>, visited: set<Config<S>>,
                                                        path: seq<int>)
    requires Paired(h) && Congruent(m) && Walking(m, h, [], |h|, visited) && Partial(m, h, path)
    ensures Covered(m, visited, At(m, h, path))
    decreases |path|
  {
    hide Congruent, Minimal, StepOp, Paired, DoneBelow;
    if path == [] {
      EqualTrans(m, m.init, m.init, m.init);
      assert At(m, h, []) in visited;
    } else {
      hide Walking;
      var k := |path| - 1;
      var p, id := path[..k], path[k];
      AllCovered(m, h, visited, p);
      MinimalRange(h, Ids(p), id);
      CoveredNext(m, h, visited, At(m, h, p), id);
      assert path == p + [id];
      assert Ids(path) == Ids(p) + {id};
    }
  }

  lemma VisitedClosed<S(!new), V>(m: Model<S, V>, h: seq<Entry<V>>, visited: set<Config<S>>, v: Config<S>)
    requires Paired(h) && Walking(m, h, [], |h|, visited) && v in visited
    ensures DoneBelow(m, h, visited, v, |h|)
  {
    hide DoneBelow;
  }

  lemma CongruentStep<S(!new), V(!new)>(m: Model<S, V>, h: seq<Entry<V>>, a: S, b: S, id: int)
    requires Paired(h) && Congruent(m) && 0 <= id < Ops(h) && m.equal(a, b) && StepOp(m, h, a, id).0
    ensures StepOp(m, h, b, id).0 && m.equal(StepOp(m, h, a, id).1, StepOp(m, h, b, id).1)
  {
  }

  // Then there is no complete one.
  lemma Exhausted<S(!new), V(!new)>(m: Model<S, V>, h: seq<Entry<V>>, visited: set<Config<S>>, path: seq<int>)
    requires Paired(h) && Congruent(m) && Walking(m, h, [], |h|, visited) && |h| > 0
    ensures !Complete(m, h, path)
  {
    if Complete(m, h, path) {
      AllCovered(m, h, visited, path);
      PartialDistinct(m, h, path);
      assert false;
    }
  }

  // --------------------------------------------------------------- termination

  // All configurations that k operations or fewer can reach: a finite set.
  ghost function Reach<S(!new), V>(m: Model<S, V>, h: seq<Entry<V>>, k: nat): set<Config<S>>
    requires Paired(h)
  {
    if k == 0 then {At(m, h, [])}
    else
      var before := Reach(m, h, k - 1);
      before + set c, id | c in before && id in Range(Ops(h)) :: Next(m, h, c, id)
  }

  lemma {:induction false} PathReached<S(!new), V>(m: Model<S, V>, h: seq<Entry<V>>, path: seq<int>, k: nat)
    requires Paired(h) && Partial(m, h, path) && |path| <= k
    ensures At(m, h, path) in Reach(m, h, k)
    decreases k
  {
    if |path| < k {
      PathReached(m, h, path, k - 1);
    } else if path != [] {
      var p, id := path[..k - 1], path[k - 1];
      PathReached(m, h, p, k - 1);
      assert path == p + [id];
      assert Ids(path) == Ids(p) + {id};
      assert id in Range(Ops(h));
      assert At(m, h, path) == Next(m, h, At(m, h, p), id);
    }
  }

  ghost function Universe<S(!new), V>(m: Model<S, V>, h: seq<Entry<V>>): set<Config<S>>
    requires Paired(h)
  {
    Reach(m, h, Ops(h))
  }

  lemma InUniverse<S(!new), V>(m: Model<S, V>, h: seq<Entry<V>>, path: seq<int>)
    requires Paired(h) && Partial(m, h, path)
    ensures At(m, h, path) in Universe(m, h)
  {
    PartialDistinct(m, h, path);
    IdsBelow(Ids(path), Ops(h));
    PathReached(m, h, path, Ops(h));
  }

  // ------------------------------------------------------ longest linearizations

  ghost predicate Witness<S(!new), V>(m: Model<S, V>, h: seq<Entry<V>>, id: int, found: Option<seq<int>>)
    requires Paired(h)
  {
    found.Some? ==> Partial(m, h, found.value) && id in found.value
  }

  // Configurations left behind are recorded with each of their operations.
  ghost predicate Recorded<S(!new), V>(m: Model<S, V>, h: seq<Entry<V>>, path: seq<int>, visited: set<Config<S>>,
                                       longest: seq<Option<seq<int>>>)
    requires Paired(h)
  {
    && |longest| == Ops(h)
    && (forall id :: 0 <= id < Ops(h) ==> Witness(m, h, id, longest[id]))
    && (forall c, id :: c in visited && !OnPath(m, h, path, c) && id in c.done && 0 <= id < Ops(h) ==>
          longest[id].Some? && |longest[id].value| >= |c.done|)
  }

  // longest[id] is a longest partial linearization that contains id, if there is one.
  ghost predicate Longest<S(!new), V>(m: Model<S, V>, h: seq<Entry<V>>, id: int, found: Option<seq<int>>)
    requires Paired(h)
  {
    && Witness(m, h, id, found)
    && forall path :: Partial(m, h, path) && id in path ==> found.Some? && |path| <= |found.value|
  }

  lemma RecordedIsLongest<S(!new), V(!new)>(m: Model<S, V>, h: seq<Entry<V>>, visited: set<Config<S>>,
                                            longest: seq<Option<seq<int>>>, id: int)
    requires Paired(h) && Congruent(m) && Walking(m, h, [], |h|, visited) && Recorded(m, h, [], visited, longest)
    requires 0 <= id < Ops(h)
    ensures Longest(m, h, id, longest[id])
  {
    hide Congruent, Walking, Partial;
    forall path | Partial(m, h, path) && id in path
      ensures longest[id].Some? && |path| <= |longest[id].value|
    {
      AllCovered(m, h, visited, path);
      PartialDistinct(m, h, path);
      var v :| v in visited && v.done == Ids(path) && m.equal(After(m, h, path), v.state);
      assert id in v.done;
      assert !OnPath(m, h, [], v);
    }
  }

  // Back at the parent, every operation of the path has a record at least as long.
  lemma RecordedPop<S(!new), V>(m: Model<S, V>, h: seq<Entry<V>>, path: seq<int>, visited: set<Config<S>>,
                                before: seq<Option<seq<int>>>, longest: seq<Option<seq<int>>>)
    requires Paired(h) && Partial(m, h, path) && path != [] && Recorded(m, h, path, visited, before)
    requires |longest| == Ops(h)
    requires forall id :: 0 <= id < Ops(h) ==>
      (longest[id] == before[id] || (longest[id] == Some(path) && id in path
        && (before[id].None? || |before[id].value| <= |path|)))
    requires forall id :: id in path && 0 <= id < Ops(h) ==> longest[id].Some? && |longest[id].value| >= |path|
    ensures Recorded(m, h, path[..|path| - 1], visited, longest)
  {
    PartialDistinct(m, h, path);
    hide Partial, At;
    forall c, id | c in visited && !OnPath(m, h, path[..|path| - 1], c) && id in c.done && 0 <= id < Ops(h)
      ensures longest[id].Some? && |longest[id].value| >= |c.done|
    {
      if OnPath(m, h, path, c) {
        assert c == At(m, h, path);
        assert c.done == Ids(path) by { AtDone(m, h, path); }
      }
    }
  }

  lemma AtDone<S(!new), V>(m: Model<S, V>, h: seq<Entry<V>>, path: seq<int>)
    requires Paired(h)
    ensures At(m, h, path).done == Ids(path)
  {
  }

  lemma RecordedPush<S(!new), V>(m: Model<S, V>, h: seq<Entry<V>>, path: seq<int>, visited: set<Config<S>>,
                                 longest: seq<Option<seq<int>>>, id: int)
    requires Paired(h) && Recorded(m, h, path, visited, longest) && 0 <= id < Ops(h)
    requires At(m, h, path + [id]) == Next(m, h, At(m, h, path), id)
    ensures Recorded(m, h, path + [id], visited + {Next(m, h, At(m, h, path), id)}, longest)
  {
    hide At, Next, Partial;
    assert (path + [id])[..|path|] == path;
  }
}
