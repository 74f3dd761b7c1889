/**
  The doubly linked list of calls and returns that the checker edits in place.  lift
  takes an operation (its call and its return) out of the list; the two nodes keep their
  own pointers, and unlift uses them to put the operation back exactly where it was.

  `all` is the original list, a sentinel first; `dead` are the positions taken out of it.
  What the pointers are is read off into a value, `Links`, so that the reasoning about
  positions is about values.
 */
module EntryList {
  import opened Wrappers
  import opened Linearizability

  class Node<V(!new)> {
    const value: Option<V>
    const partner: Node?<V>  // a call's return; null in a return
    const id: int
    var next: Node?<V>
    var prev: Node?<V>

    constructor (value: Option<V>, partner: Node?<V>, id: int)
      ensures this.value == value && this.partner == partner && this.id == id && next == null && prev == null
    {
      this.value, this.partner, this.id := value, partner, id;
      next, prev := null, null;
    }
  }

  datatype Link<V(!new)> = Link(next: Node?<V>, prev: Node?<V>)

  ghost function Links<V(!new)>(all: seq<Node<V>>): (links: seq<Link<V>>)
    reads all
    ensures |links| == |all|
    ensures forall i :: 0 <= i < |all| ==> links[i] == Link(all[i].next, all[i].prev)
  {
    seq(|all|, i requires 0 <= i < |all| reads all => Link(all[i].next, all[i].prev))
  }

  ghost predicate Distinct<V(!new)>(s: seq<Node<V>>) {
    forall i, j :: 0 <= i < j < |s| ==> s[i] != s[j]
  }

  // ------------------------------------------------------------------ neighbours

  // The first position after p, and the last before p, that is not dead.
  ghost function NextLive(n: nat, dead: set<int>, p: int): int
    decreases n - p
  {
    if p + 1 >= n then n else if p + 1 !in dead then p + 1 else NextLive(n, dead, p + 1)
  }

  ghost function PrevLive(dead: set<int>, p: int): int
    decreases p
  {
    if p <= 0 then -1 else if p - 1 !in dead then p - 1 else PrevLive(dead, p - 1)
  }

  lemma {:induction false} NextIs(n: nat, dead: set<int>, p: int)
    requires p < n
    ensures p < NextLive(n, dead, p) <= n && NextLive(n, dead, p) !in dead - {n}
    ensures forall q :: p < q < NextLive(n, dead, p) ==> q in dead
    decreases n - p
  {
    if p + 1 < n { NextIs(n, dead, p + 1); }
  }

  lemma {:induction false} PrevIs(dead: set<int>, p: int)
    requires p >= 0
    ensures -1 <= PrevLive(dead, p) < p && PrevLive(dead, p) !in dead - {-1}
    ensures forall q :: PrevLive(dead, p) < q < p ==> q in dead
    decreases p
  {
    if p > 0 { PrevIs(dead, p - 1); }
  }

  // Taking out x changes who comes next only for the one before x, and the other way round.
  lemma NextWithout(n: nat, dead: set<int>, x: nat, y: nat)
    requires x < n && y < n && x !in dead && y !in dead && x != y
    ensures NextLive(n, dead + {x}, y) == if y == PrevLive(dead, x) then NextLive(n, dead, x) else NextLive(n, dead, y)
  {
    NextIs(n, dead, y);
    NextIs(n, dead, x);
    PrevIs(dead, x);
    NextIs(n, dead + {x}, y);
  }

  lemma PrevWithout(n: nat, dead: set<int>, x: nat, y: nat)
    requires x < n && y < n && x !in dead && y !in dead && x != y
    ensures PrevLive(dead + {x}, y) == if y == NextLive(n, dead, x) then PrevLive(dead, x) else PrevLive(dead, y)
  {
    PrevIs(dead, y);
    NextIs(n, dead, x);
    PrevIs(dead, x);
    PrevIs(dead + {x}, y);
  }

  // ------------------------------------------------------------------ the pointers

  ghost function Ref<V(!new)>(all: seq<Node<V>>, p: int): Node?<V> {
    if 0 <= p < |all| then all[p] else null
  }

  // Node x points to its neighbours among the positions that are not dead.
  ghost predicate Points<V(!new)>(all: seq<Node<V>>, links: seq<Link<V>>, dead: set<int>, x: int) {
    && 0 <= x < |all| == |links|
    && links[x] == Link(Ref(all, NextLive(|all|, dead, x)), Ref(all, PrevLive(dead, x)))
  }

  // The list holds exactly the nodes that are not dead, in their original order.
  ghost predicate Linked<V(!new)>(all: seq<Node<V>>, links: seq<Link<V>>, dead: set<int>) {
    && |links| == |all|
    && forall x :: 0 <= x < |all| && x !in dead ==> Points(all, links, dead, x)
  }

  // The pointers after one node is bridged over, and after it is put back.
  ghost function SetNext<V(!new)>(links: seq<Link<V>>, p: int, to: Node?<V>): (r: seq<Link<V>>)
    ensures |r| == |links|
  {
    if 0 <= p < |links| then links[p := links[p].(next := to)] else links
  }

  ghost function SetPrev<V(!new)>(links: seq<Link<V>>, p: int, to: Node?<V>): (r: seq<Link<V>>)
    ensures |r| == |links|
  {
    if 0 <= p < |links| then links[p := links[p].(prev := to)] else links
  }

  ghost function Bridge<V(!new)>(links: seq<Link<V>>, x: int, p: int, q: int): (r: seq<Link<V>>)
    requires 0 <= x < |links|
    ensures |r| == |links|
  {
    SetPrev(SetNext(links, p, links[x].next), q, links[x].prev)
  }

  lemma Bridged<V(!new)>(all: seq<Node<V>>, links: seq<Link<V>>, dead: set<int>, x: int)
    requires Linked(all, links, dead) && 0 <= x < |all| && x !in dead
    ensures Linked(all, Bridge(links, x, PrevLive(dead, x), NextLive(|all|, dead, x)), dead + {x})
    ensures Points(all, Bridge(links, x, PrevLive(dead, x), NextLive(|all|, dead, x)), dead, x)
  {
    hide NextLive, PrevLive;
    var p, q := PrevLive(dead, x), NextLive(|all|, dead, x);
    var after := Bridge(links, x, p, q);
    PrevIs(dead, x);
    NextIs(|all|, dead, x);
    assert Points(all, links, dead, x);
    forall y | 0 <= y < |all| && y !in dead + {x} ensures Points(all, after, dead + {x}, y) {
      assert Points(all, links, dead, y);
      NextWithout(|all|, dead, x, y);
      PrevWithout(|all|, dead, x, y);
    }
  }

  lemma Restored<V(!new)>(all: seq<Node<V>>, links: seq<Link<V>>, dead: set<int>, x: int)
    requires Linked(all, links, dead + {x}) && 0 <= x < |all| && x !in dead && Points(all, links, dead, x)
    ensures Linked(all, SetPrev(SetNext(links, PrevLive(dead, x), all[x]), NextLive(|all|, dead, x), all[x]), dead)
  {
    hide NextLive, PrevLive;
    var p, q := PrevLive(dead, x), NextLive(|all|, dead, x);
    var after := SetPrev(SetNext(links, p, all[x]), q, all[x]);
    PrevIs(dead, x);
    NextIs(|all|, dead, x);
    forall y | 0 <= y < |all| && y !in dead ensures Points(all, after, dead, y) {
      if y != x {
        assert Points(all, links, dead + {x}, y);
        NextWithout(|all|, dead, x, y);
        PrevWithout(|all|, dead, x, y);
        Mutual(|all|, dead, x, y);
      }
    }
  }

  lemma Mutual(n: nat, dead: set<int>, x: nat, y: nat)
    requires x < n && y < n && x !in dead && y !in dead
    ensures y == PrevLive(dead, x) <==> x == NextLive(n, dead, y)
    ensures y == NextLive(n, dead, x) <==> x == PrevLive(dead, y)
  {
    NextIs(n, dead, y);
    NextIs(n, dead, x);
    PrevIs(dead, x);
    PrevIs(dead, y);
  }

  // ------------------------------------------------------------------ in place

  // A live node other than the sentinel has a live node before it.
  lemma NeighboursLive<V(!new)>(all: seq<Node<V>>, links: seq<Link<V>>, dead: set<int>, x: int)
    requires Points(all, links, dead, x) && 0 !in dead && x > 0 && x !in dead
    ensures 0 <= PrevLive(dead, x) < x < NextLive(|all|, dead, x) <= |all|
    ensures PrevLive(dead, x) !in dead && (NextLive(|all|, dead, x) < |all| ==> NextLive(|all|, dead, x) !in dead)
    ensures links[x].prev == all[PrevLive(dead, x)]
    ensures links[x].next == Ref(all, NextLive(|all|, dead, x))
  {
    PrevIs(dead, x);
    NextIs(|all|, dead, x);
    assert 0 !in dead;
  }

  method Lift<V(!new)>(entry: Node<V>, ghost all: seq<Node<V>>, ghost dead: set<int>, ghost a: nat, ghost b: nat)
    requires Distinct(all) && Linked(all, Links(all), dead) && 0 !in dead
    requires 0 < a < b < |all| && a !in dead && b !in dead && all[a] == entry && all[b] == entry.partner
    modifies all
    ensures Linked(all, Links(all), dead + {a} + {b})
    ensures Points(all, Links(all), dead, a) && Points(all, Links(all), dead + {a}, b)
    ensures forall x :: x in dead && 0 <= x < |all| ==> Links(all)[x] == old(Links(all))[x]
  {
    hide NextLive, PrevLive, Linked, Points;
    ghost var links0 := Links(all);
    ghost var p, q := PrevLive(dead, a), NextLive(|all|, dead, a);
    LinkedAt(all, links0, dead, a);
    NeighboursLive(all, links0, dead, a);
    FirstLive(|all|, dead, a, b);
    entry.prev.next := entry.next;
    entry.next.prev := entry.prev;
    ghost var links1 := Links(all);
    assert links1 == Bridge(links0, a, p, q);
    Bridged(all, links0, dead, a);
    ghost var dead1 := dead + {a};
    ghost var p1, q1 := PrevLive(dead1, b), NextLive(|all|, dead1, b);
    LinkedAt(all, links1, dead1, b);
    NeighboursLive(all, links1, dead1, b);
    var partner := entry.partner;
    partner.prev.next := partner.next;
    if partner.next != null {
      partner.next.prev := partner.prev;
    }
    assert Links(all) == Bridge(links1, b, p1, q1);
    Bridged(all, links1, dead1, b);
    PointsSame(all, links1, Links(all), dead, a);
  }

  lemma LinkedAt<V(!new)>(all: seq<Node<V>>, links: seq<Link<V>>, dead: set<int>, x: int)
    requires Linked(all, links, dead) && 0 <= x < |all| && x !in dead
    ensures Points(all, links, dead, x)
  {
  }

  lemma FirstLive(n: nat, dead: set<int>, a: nat, b: nat)
    requires a < b < n && b !in dead
    ensures NextLive(n, dead, a) <= b
  {
    NextIs(n, dead, a);
  }

  lemma PointsSame<V(!new)>(all: seq<Node<V>>, before: seq<Link<V>>, after: seq<Link<V>>, dead: set<int>, x: int)
    requires Points(all, before, dead, x) && |after| == |before| && after[x] == before[x]
    ensures Points(all, after, dead, x)
  {
  }

  method Unlift<V(!new)>(entry: Node<V>, ghost all: seq<Node<V>>, ghost dead: set<int>, ghost a: nat, ghost b: nat)
    requires Distinct(all) && Linked(all, Links(all), dead + {a} + {b}) && 0 !in dead
    requires 0 < a < b < |all| && a !in dead && b !in dead && all[a] == entry && all[b] == entry.partner
    requires Points(all, Links(all), dead, a) && Points(all, Links(all), dead + {a}, b)
    modifies all
    ensures Linked(all, Links(all), dead)
    ensures forall x :: x in dead && 0 <= x < |all| ==> Links(all)[x] == old(Links(all))[x]
  {
    hide NextLive, PrevLive, Linked, Points;
    ghost var links0, dead1 := Links(all), dead + {a};
    ghost var p, q := PrevLive(dead1, b), NextLive(|all|, dead1, b);
    NeighboursLive(all, links0, dead1, b);
    var partner := entry.partner;
    partner.prev.next := partner;
    if partner.next != null {
      partner.next.prev := partner;
    }
    ghost var links1 := Links(all);
    assert links1 == SetPrev(SetNext(links0, p, all[b]), q, all[b]);
    Restored(all, links0, dead1, b);
    PointsSame(all, links0, links1, dead, a);
    ghost var p1, q1 := PrevLive(dead, a), NextLive(|all|, dead, a);
    NeighboursLive(all, links1, dead, a);
    FirstLive(|all|, dead, a, b);
    entry.prev.next := entry;
    entry.next.prev := entry;
    assert Links(all) == SetPrev(SetNext(links1, p1, all[a]), q1, all[a]);
    Restored(all, links1, dead, a);
  }

  // unlift undoes lift: every pointer of the list is as it was.
  method LiftUnlift<V(!new)>(entry: Node<V>, ghost all: seq<Node<V>>, ghost dead: set<int>, ghost a: nat, ghost b: nat)
    requires Distinct(all) && Linked(all, Links(all), dead) && 0 !in dead
    requires 0 < a < b < |all| && a !in dead && b !in dead && all[a] == entry && all[b] == entry.partner
    modifies all
    ensures Links(all) == old(Links(all))
  {
    Lift(entry, all, dead, a, b);
    Unlift(entry, all, dead, a, b);
    forall x | 0 <= x < |all| ensures Links(all)[x] == old(Links(all))[x] {
      if x !in dead {
        assert Points(all, Links(all), dead, x) && Points(all, old(Links(all)), dead, x);
      }
    }
  }

  // ------------------------------------------------------------------ building it

  // The original list: each node points to the ones beside it.
  ghost predicate Chain<V(!new)>(all: seq<Node<V>>, links: seq<Link<V>>) {
    && |links| == |all|
    && forall i :: 0 <= i < |all| ==> links[i] == Link(Ref(all, i + 1), Ref(all, i - 1))
  }

  lemma ChainLinked<V(!new)>(all: seq<Node<V>>, links: seq<Link<V>>)
    requires Chain(all, links)
    ensures Linked(all, links, {})
  {
  }

  ghost function Inserted<T>(s: seq<T>, k: nat, x: T): seq<T>
    requires k <= |s|
  {
    s[..k] + [x] + s[k..]
  }

  lemma ChainInserted<V(!new)>(all: seq<Node<V>>, links: seq<Link<V>>, k: nat, n: Node<V>)
    requires Chain(all, links) && k <= |all| && (k < |all| || all == [])
    ensures Chain(Inserted(all, k, n),
                  Inserted(SetPrev(SetNext(links, k - 1, n), k, n), k, Link(Ref(all, k), Ref(all, k - 1))))
  {
    var next := Inserted(all, k, n);
    var after := Inserted(SetPrev(SetNext(links, k - 1, n), k, n), k, Link(Ref(all, k), Ref(all, k - 1)));
    forall i | 0 <= i < |next| ensures after[i] == Link(Ref(next, i + 1), Ref(next, i - 1)) {
      if i < k {
        assert links[i] == Link(Ref(all, i + 1), Ref(all, i - 1));
      } else if i > k {
        assert next[i] == all[i - 1] && links[i - 1] == Link(Ref(all, i), Ref(all, i - 2));
      }
    }
  }

  lemma DistinctInserted<V(!new)>(all: seq<Node<V>>, k: nat, n: Node<V>)
    requires Distinct(all) && n !in all && k <= |all|
    ensures Distinct(Inserted(all, k, n))
  {
  }

  lemma LinksInserted<V(!new)>(all: seq<Node<V>>, k: nat, n: Node<V>)
    requires k <= |all|
    ensures Links(Inserted(all, k, n)) == Inserted(Links(all), k, Link(n.next, n.prev))
  {
  }

  method InsertBefore<V(!new)>(n: Node<V>, mark: Node?<V>, ghost all: seq<Node<V>>, ghost k: nat) returns (r: Node<V>)
    requires Distinct(all) && Chain(all, Links(all)) && n !in all && n.next == null && n.prev == null
    requires k <= |all| && mark == Ref(all, k) && (k < |all| || all == [])
    modifies n, all
    ensures r == n
    ensures Distinct(Inserted(all, k, n)) && Chain(Inserted(all, k, n), Links(Inserted(all, k, n)))
  {
    ghost var links := Links(all);
    ChainInserted(all, links, k, n);
    DistinctInserted(all, k, n);
    hide Inserted;
    if mark != null {
      assert links[k] == Link(mark.next, mark.prev);
      assert mark.prev == Ref(all, k - 1);
      var beforeMark := mark.prev;
      mark.prev := n;
      n.next := mark;
      if beforeMark != null {
        n.prev := beforeMark;
        beforeMark.next := n;
      }
    }
    hide Chain;
    assert Links(all) == SetPrev(SetNext(links, k - 1, n), k, n);
    hide Distinct;
    LinksInserted(all, k, n);
    r := n;
  }

  method Length<V(!new)>(first: Node?<V>, ghost all: seq<Node<V>>) returns (l: nat)
    requires Chain(all, Links(all)) && first == Ref(all, 0)
    ensures l == |all|
  {
    l := 0;
    var n := first;
    while n != null
      invariant l <= |all| && n == Ref(all, l)
      decreases |all| - l
    {
      assert Links(all)[l].next == n.next;
      n := n.next;
      l := l + 1;
    }
  }

  // The first return of operation id at position j or later; |h| if there is none.
  ghost function Seek<V>(h: seq<Entry<V>>, j: nat, id: int): (r: nat)
    decreases |h| - j
  {
    if j >= |h| then |h| else if h[j].kind == Return && h[j].id == id then j else Seek(h, j + 1, id)
  }

  // The nodes of h[off..]; a call's partner is the next return of its operation.
  ghost predicate Nodes<V(!new)>(h: seq<Entry<V>>, off: nat, all: seq<Node<V>>) {
    && off + |all| == |h|
    && forall i {:trigger all[i]} :: 0 <= i < |all| ==>
      && all[i].value == Some(h[off + i].value) && all[i].id == h[off + i].id
      && all[i].partner ==
         if h[off + i].kind == Return then null else Ref(all, Seek(h, off + i + 1, h[off + i].id) - off)
  }

  // partners maps an operation to the node of its first return in h[off..].
  ghost predicate Partners<V(!new)>(h: seq<Entry<V>>, off: nat, all: seq<Node<V>>, partners: map<int, Node<V>>) {
    && off + |all| == |h|
    && (forall id :: id in partners <==> Seek(h, off, id) < |h|)
    && (forall id :: id in partners ==> partners[id] == Ref(all, Seek(h, off, id) - off))
  }

  method MakeLinkedEntries<V(!new)>(h: seq<Entry<V>>) returns (root: Node?<V>, ghost all: seq<Node<V>>)
    ensures fresh(all)
    ensures Nodes(h, 0, all) && Distinct(all) && Chain(all, Links(all)) && root == Ref(all, 0)
  {
    hide Nodes, Partners, Chain, Distinct;
    root, all := null, [];
    NoNodes<V>(h);
    var partners: map<int, Node<V>> := map[];
    var i := |h|;
    while i > 0
      invariant 0 <= i <= |h|
      invariant fresh(all)
      invariant Nodes(h, i, all) && Partners(h, i, all, partners)
      invariant Distinct(all) && Chain(all, Links(all)) && root == Ref(all, 0)
    {
      i := i - 1;
      var elem := h[i];
      var partner: Node?<V> :=
        if elem.kind == Return then null else if elem.id in partners then partners[elem.id] else null;
      var entry := new Node(Some(elem.value), partner, elem.id);
      NodesGrow(h, i, all, partners, entry);
      if elem.kind == Return {
        partners := partners[elem.id := entry];
      }
      root := InsertBefore(entry, root, all, 0);
      assert Inserted(all, 0, entry) == [entry] + all;
      all := [entry] + all;
    }
  }

  lemma {:induction false} SeekRange<V>(h: seq<Entry<V>>, j: nat, id: int)
    requires j <= |h|
    ensures j <= Seek(h, j, id) <= |h|
    decreases |h| - j
  {
    if j < |h| { SeekRange(h, j + 1, id); }
  }

  lemma NoNodes<V(!new)>(h: seq<Entry<V>>)
    ensures Nodes(h, |h|, []) && Partners(h, |h|, [], map[]) && Distinct<V>([]) && Chain<V>([], [])
  {
  }

  lemma PartnersGrow<V(!new)>(h: seq<Entry<V>>, i: nat, all: seq<Node<V>>, partners: map<int, Node<V>>, entry: Node<V>)
    requires i < |h| && Partners(h, i + 1, all, partners)
    ensures Partners(h, i, [entry] + all, if h[i].kind == Return then partners[h[i].id := entry] else partners)
  {
    var next, after := [entry] + all, if h[i].kind == Return then partners[h[i].id := entry] else partners;
    forall id
      ensures id in after <==> Seek(h, i, id) < |h|
      ensures id in after ==> after[id] == Ref(next, Seek(h, i, id) - i)
    {
      SeekRange(h, i + 1, id);
    }
  }

  lemma NodeGrow<V(!new)>(h: seq<Entry<V>>, i: nat, all: seq<Node<V>>, partners: map<int, Node<V>>, entry: Node<V>,
                          j: nat)
    requires i < |h| && Nodes(h, i + 1, all) && Partners(h, i + 1, all, partners) && j <= |all|
    requires entry.value == Some(h[i].value) && entry.id == h[i].id
    requires entry.partner ==
      if h[i].kind == Return then null else if h[i].id in partners then partners[h[i].id] else null
    ensures var next := [entry] + all;
      && next[j].value == Some(h[i + j].value) && next[j].id == h[i + j].id
      && next[j].partner ==
         if h[i + j].kind == Return then null else Ref(next, Seek(h, i + j + 1, h[i + j].id) - i)
  {
    hide Seek;
    SeekRange(h, i + j + 1, h[i + j].id);
    if j > 0 { assert ([entry] + all)[j] == all[j - 1]; }
  }

  lemma NodesGrow<V(!new)>(h: seq<Entry<V>>, i: nat, all: seq<Node<V>>, partners: map<int, Node<V>>, entry: Node<V>)
    requires i < |h| && Nodes(h, i + 1, all) && Partners(h, i + 1, all, partners)
    requires entry.value == Some(h[i].value) && entry.id == h[i].id
    requires entry.partner ==
      if h[i].kind == Return then null else if h[i].id in partners then partners[h[i].id] else null
    ensures Nodes(h, i, [entry] + all)
    ensures Partners(h, i, [entry] + all, if h[i].kind == Return then partners[h[i].id := entry] else partners)
  {
    PartnersGrow(h, i, all, partners, entry);
    assert i + 1 + |all| == |h|;
    hide Seek, Ref, Partners;
    var next := [entry] + all;
    forall j | 0 <= j < |next|
      ensures next[j].value == Some(h[i + j].value) && next[j].id == h[i + j].id
      ensures next[j].partner ==
        if h[i + j].kind == Return then null else Ref(next, Seek(h, i + j + 1, h[i + j].id) - i)
    {
      NodeGrow(h, i, all, partners, entry, j);
    }
  }
}
