/**
  The data behind the visualizer: the longest partial linearizations that the checker
  reports are replayed through the model, where a step that is not accepted is a panic.
 */
module Visualizer {
  import opened Wrappers
  import opened Linearizability
  import opened Search
  import opened Sorting
  import Checker

  ghost predicate ValuesOf<V>(h: seq<Entry<V>>, callValue: map<int, V>, returnValue: map<int, V>)
    requires Paired(h)
  {
    forall id :: 0 <= id < Ops(h) ==>
      && id in callValue && callValue[id] == h[CallOf(h, id)].value
      && id in returnValue && returnValue[id] == h[ReturnOf(h, id)].value
  }

  method CollectValues<V>(h: seq<Entry<V>>) returns (callValue: map<int, V>, returnValue: map<int, V>)
    requires Paired(h)
    ensures ValuesOf(h, callValue, returnValue)
  {
    callValue, returnValue := map[], map[];
    for i := 0 to |h|
      invariant forall j :: 0 <= j < i && h[j].kind == Call ==> h[j].id in callValue && callValue[h[j].id] == h[j].value
      invariant forall j :: 0 <= j < i && h[j].kind == Return ==>
        h[j].id in returnValue && returnValue[h[j].id] == h[j].value
    {
      assert forall j :: 0 <= j < i && h[j].id == h[i].id ==> h[j].kind == Call && h[i].kind == Return;
      match h[i].kind {
        case Call => callValue := callValue[h[i].id := h[i].value];
        case Return => returnValue := returnValue[h[i].id := h[i].value];
      }
    }
    forall id | 0 <= id < Ops(h)
      ensures id in callValue && callValue[id] == h[CallOf(h, id)].value
      ensures id in returnValue && returnValue[id] == h[ReturnOf(h, id)].value
    {
      var c, r := CallOf(h, id), ReturnOf(h, id);
      assert h[c].id == id && h[r].id == id;
    }
  }

  // The states along a linearization; None stands for the panic.
  method Replay<S(!new), V>(m: Model<S, V>, ghost h: seq<Entry<V>>, partial: seq<int>, callValue: map<int, V>,
                            returnValue: map<int, V>)
    returns (states: Option<seq<S>>)
    requires Paired(h) && ValuesOf(h, callValue, returnValue) && forall x :: x in partial ==> 0 <= x < Ops(h)
    ensures states.Some? <==> Steps(m, h, partial)
    ensures states.Some? ==>
      (&& |states.value| == |partial|
       && forall j :: 0 <= j < |partial| ==> states.value[j] == After(m, h, partial[..j + 1]))
  {
    var state, done := m.init, [];
    for j := 0 to |partial|
      invariant Steps(m, h, partial[..j]) && state == After(m, h, partial[..j])
      invariant |done| == j && forall i :: 0 <= i < j ==> done[i] == After(m, h, partial[..i + 1])
    {
      var histId := partial[j];
      assert histId in partial;
      var (ok, next) := m.step(state, callValue[histId], returnValue[histId]);
      StepsMore(m, h, partial, j);
      if !ok {
        StepsPrefix(m, h, partial, j + 1);
        return None;
      }
      state := next;
      done := done + [state];
    }
    assert partial[..|partial|] == partial;
    return Some(done);
  }

  // Every step of the path is accepted.
  ghost predicate Steps<S(!new), V>(m: Model<S, V>, h: seq<Entry<V>>, path: seq<int>)
    requires Paired(h)
  {
    path == [] ||
    (var k := |path| - 1;
     Steps(m, h, path[..k]) && 0 <= path[k] < Ops(h) && StepOp(m, h, After(m, h, path[..k]), path[k]).0)
  }

  lemma StepsMore<S(!new), V>(m: Model<S, V>, h: seq<Entry<V>>, path: seq<int>, j: nat)
    requires Paired(h) && j < |path| && 0 <= path[j] < Ops(h)
    ensures After(m, h, path[..j + 1]) == StepOp(m, h, After(m, h, path[..j]), path[j]).1
    ensures Steps(m, h, path[..j + 1]) <==> Steps(m, h, path[..j]) && StepOp(m, h, After(m, h, path[..j]), path[j]).0
  {
    assert path[..j + 1][..j] == path[..j];
  }

  lemma {:induction false} StepsPrefix<S(!new), V>(m: Model<S, V>, h: seq<Entry<V>>, path: seq<int>, k: nat)
    requires Paired(h) && k <= |path|
    ensures Steps(m, h, path) ==> Steps(m, h, path[..k])
    decreases |path|
  {
    if k < |path| {
      StepsPrefix(m, h, path[..|path| - 1], k);
      assert path[..|path| - 1][..k] == path[..k];
    } else {
      assert path[..k] == path;
    }
  }

  lemma {:induction false} PartialSteps<S(!new), V>(m: Model<S, V>, h: seq<Entry<V>>, path: seq<int>)
    requires Paired(h) && Partial(m, h, path)
    ensures Steps(m, h, path)
    decreases |path|
  {
    if path != [] { PartialSteps(m, h, path[..|path| - 1]); }
  }

  // The index of a largest listed linearization of each operation that has one.
  ghost predicate LargestOf(partials: seq<seq<int>>, largest: map<int, nat>) {
    && (forall i, id :: 0 <= i < |partials| && id in partials[i] ==> id in largest)
    && (forall id :: id in largest ==>
          && largest[id] < |partials| && id in partials[largest[id]]
          && forall i :: 0 <= i < |partials| && id in partials[i] ==> |partials[i]| <= |partials[largest[id]]|)
  }

  // One more linearization: the operations whose size so far is smaller move to it.
  method MarkLargest(partials: seq<seq<int>>, i: nat, largestSize: map<int, nat>, largestIndex: map<int, nat>)
    returns (size: map<int, nat>, index: map<int, nat>)
    requires i < |partials| && LargestOf(partials[..i], largestIndex)
    requires largestSize.Keys == largestIndex.Keys && forall id :: id in largestIndex ==>
      largestSize[id] == |partials[largestIndex[id]]|
    ensures LargestOf(partials[..i + 1], index)
    ensures size.Keys == index.Keys && forall id :: id in index ==> index[id] <= i && size[id] == |partials[index[id]]|
  {
    assert forall id :: id in largestIndex ==> largestIndex[id] < i;
    hide LargestOf;
    var partial := partials[i];
    size, index := largestSize, largestIndex;
    for j := 0 to |partial|
      invariant size.Keys == index.Keys && forall id :: id in index ==>
        index[id] <= i && size[id] == |partials[index[id]]|
      invariant forall id :: id in index ==>
        (index[id] == i && id in partial && (id in largestIndex ==> largestSize[id] < |partial|))
        || (id in largestIndex && index[id] == largestIndex[id])
      invariant forall id :: id in largestIndex ==> id in index
      invariant forall k :: 0 <= k < j ==> partial[k] in index && size[partial[k]] >= |partial|
    {
      var histId := partial[j];
      if (if histId in size then size[histId] else 0) < |partial| {
        size := size[histId := |partial|];
        index := index[histId := i];
      }
    }
    MarkedLargest(partials, i, largestIndex, index);
  }

  lemma MarkedLargest(partials: seq<seq<int>>, i: nat, before: map<int, nat>, index: map<int, nat>)
    requires i < |partials| && LargestOf(partials[..i], before)
    requires forall id :: id in index ==> index[id] <= i
    requires forall id :: id in index ==>
      (index[id] == i && id in partials[i] && (id in before ==> |partials[before[id]]| < |partials[i]|))
      || (id in before && index[id] == before[id])
    requires forall id :: id in before ==> id in index
    requires forall id :: id in partials[i] ==> id in index && index[id] <= i && |partials[index[id]]| >= |partials[i]|
    ensures LargestOf(partials[..i + 1], index)
  {
    var t := partials[..i + 1];
    forall j, id | 0 <= j < |t| && id in t[j] ensures id in index && |t[j]| <= |t[index[id]]| {
      if j < i {
        assert partials[..i][j] == t[j];
        assert id in before;
        assert |partials[..i][j]| <= |partials[..i][before[id]]|;
      }
    }
    forall id | id in index ensures index[id] < |t| && id in t[index[id]] {
      if index[id] != i { assert partials[..i][before[id]] == t[index[id]]; }
    }
  }

  // ------------------------------------------------------------------- all of it

  predicate Longer(a: seq<int>, b: seq<int>) {
    |a| > |b|
  }

  // The linearizations on record, without repetition, longest first.
  method Distinguish(longest: seq<Option<seq<int>>>) returns (partials: seq<seq<int>>)
    ensures forall p :: p in partials <==> Some(p) in longest
    ensures forall i, j :: 0 <= i < j < |partials| ==> |partials[i]| >= |partials[j]|
  {
    var found: seq<seq<int>> := [];
    for i := 0 to |longest|
      invariant forall p :: p in found <==> Some(p) in longest[..i]
    {
      assert longest[..i + 1] == longest[..i] + [longest[i]];
      if longest[i].Some? && longest[i].value !in found {
        found := found + [longest[i].value];
      }
    }
    assert longest[..|longest|] == longest;
    Sorts(Longer, found);
    partials := Sort(Longer, found);
    assert forall i, j :: 0 <= i < j < |partials| ==> !Longer(partials[j], partials[i]);
    forall p ensures p in partials <==> p in found {
      assert p in partials <==> p in multiset(partials);
      assert p in found <==> p in multiset(found);
    }
  }

  method Largest(partials: seq<seq<int>>) returns (largest: map<int, nat>)
    ensures LargestOf(partials, largest)
  {
    largest := map[];
    var size: map<int, nat> := map[];
    for i := 0 to |partials|
      invariant LargestOf(partials[..i], largest)
      invariant size.Keys == largest.Keys && forall id :: id in largest ==>
        largest[id] < |partials| && size[id] == |partials[largest[id]]|
    {
      size, largest := MarkLargest(partials, i, size, largest);
    }
    assert partials[..|partials|] == partials;
  }

  // A complete linearization is a longest one of every operation.
  lemma RecordIsLongest<S(!new), V(!new)>(m: Model<S, V>, h: seq<Entry<V>>, id: int, found: Option<seq<int>>)
    requires Paired(h) && 0 <= id < Ops(h) && found.Some? && Complete(m, h, found.value)
    ensures Longest(m, h, id, found)
  {
    hide Partial;
    PartialDistinct(m, h, found.value);
    IdsBelow(Ids(found.value), Ops(h));
    assert id in Ids(found.value);
    forall path | Partial(m, h, path) && id in path ensures |path| <= |found.value| {
      PartialDistinct(m, h, path);
      IdsBelow(Ids(path), Ops(h));
    }
  }

  ghost predicate HasPartial<S(!new), V>(m: Model<S, V>, h: seq<Entry<V>>, id: int)
    requires Paired(h)
  {
    exists path :: Partial(m, h, path) && id in path
  }

  // The panic is not reached.  If no operation can tell equal states apart, what is shown as
  // largest for an operation is a longest partial linearization among all that contain it.
  method Visualize<S(!new), V(!new)>(m: Model<S, V>, h: seq<Entry<V>>)
    returns (partials: seq<seq<int>>, states: seq<Option<seq<S>>>, largest: map<int, nat>)
    requires Paired(h) && Reflexive(m)
    ensures |states| == |partials|
    ensures forall i :: 0 <= i < |partials| ==> Partial(m, h, partials[i]) && Replayed(m, h, partials[i], states[i])
    ensures forall id :: id in largest ==> largest[id] < |partials| && id in partials[largest[id]]
    ensures Congruent(m) ==> forall id :: LargestOfAll(m, h, partials, largest, id)
  {
    hide Congruent, Reflexive, Paired, Partial, Longest, Witness, LargestOfAll;
    var callValue, returnValue := CollectValues(h);
    var ok, longest := Checker.CheckSingle(m, h, true);
    forall id | 0 <= id < Ops(h) ensures Witness(m, h, id, longest[id])
      ensures Congruent(m) ==> Longest(m, h, id, longest[id])
    {
      if ok {
        RecordIsLongest(m, h, id, longest[id]);
        LongestWitness(m, h, id, longest[id]);
      }
    }
    partials := Distinguish(longest);
    forall i | 0 <= i < |partials| ensures Partial(m, h, partials[i]) && Steps(m, h, partials[i]) {
      OnRecord(m, h, longest, partials[i]);
    }
    states := [];
    for i := 0 to |partials|
      invariant |states| == i && forall j :: 0 <= j < i ==> Replayed(m, h, partials[j], states[j])
    {
      PartialDistinct(m, h, partials[i]);
      var replayed := Replay(m, h, partials[i], callValue, returnValue);
      states := states + [replayed];
    }
    largest := Largest(partials);
    if Congruent(m) {
      forall id ensures LargestOfAll(m, h, partials, largest, id) {
        LargestShown(m, h, longest, partials, largest, id);
      }
    }
  }

  // Every step was accepted, and each is shown with the state it leads to.
  ghost predicate Replayed<S(!new), V>(m: Model<S, V>, h: seq<Entry<V>>, path: seq<int>, states: Option<seq<S>>)
    requires Paired(h)
  {
    && states.Some? && |states.value| == |path|
    && forall j :: 0 <= j < |path| ==> states.value[j] == After(m, h, path[..j + 1])
  }

  // id is shown if some partial linearization contains it, and then with a longest one.
  ghost predicate LargestOfAll<S(!new), V>(m: Model<S, V>, h: seq<Entry<V>>, partials: seq<seq<int>>,
                                           largest: map<int, nat>, id: int)
    requires Paired(h)
  {
    && (id in largest <==> HasPartial(m, h, id))
    && (id in largest ==>
          && largest[id] < |partials| && id in partials[largest[id]]
          && forall path :: Partial(m, h, path) && id in path ==> |path| <= |partials[largest[id]]|)
  }

  lemma LongestWitness<S(!new), V(!new)>(m: Model<S, V>, h: seq<Entry<V>>, id: int, found: Option<seq<int>>)
    requires Paired(h) && Longest(m, h, id, found)
    ensures Witness(m, h, id, found)
  {
  }

  lemma OnRecord<S(!new), V(!new)>(m: Model<S, V>, h: seq<Entry<V>>, longest: seq<Option<seq<int>>>, path: seq<int>)
    requires Paired(h) && |longest| == Ops(h) && Some(path) in longest
    requires forall id :: 0 <= id < Ops(h) ==> Witness(m, h, id, longest[id])
    ensures Partial(m, h, path) && Steps(m, h, path)
  {
    var id :| 0 <= id < Ops(h) && longest[id] == Some(path);
    assert Witness(m, h, id, longest[id]);
    PartialSteps(m, h, path);
  }

  lemma LargestShown<S(!new), V(!new)>(m: Model<S, V>, h: seq<Entry<V>>, longest: seq<Option<seq<int>>>,
                                       partials: seq<seq<int>>, largest: map<int, nat>, id: int)
    requires Paired(h) && |longest| == Ops(h) && LargestOf(partials, largest)
    requires forall x :: 0 <= x < Ops(h) ==> Longest(m, h, x, longest[x])
    requires forall p :: p in partials <==> Some(p) in longest
    requires forall i :: 0 <= i < |partials| ==> Partial(m, h, partials[i])
    ensures LargestOfAll(m, h, partials, largest, id)
  {
    hide Partial, Paired;
    if id in largest { assert Partial(m, h, partials[largest[id]]); }
    forall path | Partial(m, h, path) && id in path
      ensures id in largest && |path| <= |partials[largest[id]]|
    {
      PartialDistinct(m, h, path);
      assert Longest(m, h, id, longest[id]);
      var p := longest[id].value;
      assert longest[id] in longest && p in partials;
      var i :| 0 <= i < |partials| && partials[i] == p;
    }
  }
}
