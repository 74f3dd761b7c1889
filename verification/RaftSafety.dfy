/**
  Election Safety, Log Matching and Leader Completeness (sections 5.2, 5.3 and 5.4.3 of
  the extended Raft paper) for every run of the source as written: any number of
  servers, lost, delayed and reordered messages, crashes between and inside steps.
 */
module RaftSafety {
  import opened RaftNode
  import opened RaftProtocol
  import opened RaftInvariant
  import opened RaftActions
  import opened Quorum

  lemma LeadsOnRecord(w: World, p: nat, term: int)
    requires Inv(w) && Leads(w, p, term)
    ensures term in w.hist.leaders && w.hist.leaders[term].id == p && w.hist.leaders[term].log == w.peers[p].node.logs
  {
    LeaderOf(w, p);
  }

  // At most one server is ever leader in a term.
  lemma ElectionSafety(cfg: Config, ws: seq<World>, acts: seq<Action>, a: nat, b: nat, p: nat, q: nat, term: int)
    requires IsRun(cfg, ws, acts) && a <= b < |ws|
    requires Leads(ws[a], p, term) && Leads(ws[b], q, term)
    ensures p == q
  {
    RunInv(cfg, ws, acts, a, b);
    LeadsOnRecord(ws[a], p, term);
    LeadsOnRecord(ws[b], q, term);
    hide Inv;
    assert LongerLog(ws[a].hist.leaders[term], ws[b].hist.leaders[term], term);
  }

  lemma LogOnRecord(w: World, p: nat)
    requires Inv(w) && p < |w.peers|
    ensures Shape(w.peers[p].node.logs) && Grown(w.hist.leaders, w.peers[p].node.logs)
  {
  }

  // If two logs, of any two servers at any two times, agree on the term at an index, they
  // agree on all entries up to it.  Entry i always carries Index i.
  lemma LogMatching(cfg: Config, ws: seq<World>, acts: seq<Action>, a: nat, b: nat, p: nat, q: nat, i: nat)
    requires IsRun(cfg, ws, acts) && a <= b < |ws| && p < cfg.n && q < cfg.n
    ensures |ws[a].peers| == |ws[b].peers| == cfg.n
    ensures var x, y := ws[a].peers[p].node.logs, ws[b].peers[q].node.logs;
      && (i < |x| ==> x[i].index == i)
      && (i < |x| && i < |y| && x[i].term == y[i].term ==> x[..i + 1] == y[..i + 1])
  {
    hide Inv, IsRun, Later, Shape, Grown;
    RunInv(cfg, ws, acts, a, b);
    LogOnRecord(ws[a], p);
    LogOnRecord(ws[b], q);
    var x, y := ws[a].peers[p].node.logs, ws[b].peers[q].node.logs;
    GrownLater(ws[a].hist.leaders, ws[b].hist.leaders, x);
    ShapeIndex(x, i);
    if i < |x| && i < |y| && x[i].term == y[i].term {
      SameTermSamePrefix(ws[b].hist.leaders, x, y, i);
      AgreeSlices(x, y, i + 1);
    }
  }

  lemma ShapeIndex(log: seq<LogEntry>, i: nat)
    requires Shape(log)
    ensures i < |log| ==> log[i].index == i
  {
  }

  lemma AgreeSlices(x: seq<LogEntry>, y: seq<LogEntry>, m: nat)
    requires Agree(x, y, m)
    ensures m <= |x| && m <= |y| && x[..m] == y[..m]
  {
  }

  // ------------------------------------------------------- leader completeness

  ghost function Holders(held: set<Holding>, size: nat, term: int, i: int): set<nat> {
    set v: nat | v < size && Holding(v, term, i) in held
  }

  // A majority, while in the term, held the term's entry at i.
  ghost predicate Quorate(w: World, term: int, i: int) {
    && term in w.hist.leaders && Has(w.hist.leaders[term].log, term, i)
    && Majority(Holders(w.hist.held, |w.peers|, term, i), |w.peers|)
  }

  // The first later leader to lack the entry would have been elected by a holder, who
  // vouched for it.
  lemma {:induction false} Complete(w: World, term: int, i: int, later: int)
    requires InvLeaders(w) && InvVouched(w) && Quorate(w, term, i)
    requires later in w.hist.leaders && term < later
    ensures Has(w.hist.leaders[later].log, term, i)
    decreases later
  {
    var ls := w.hist.leaders;
    var v := Overlap(Holders(w.hist.held, |w.peers|, term, i), ls[later].electors, |w.peers|);
    assert Vouches(ls, w.hist.held, v, later, ls[later].log);
    assert Holding(v, term, i) in w.hist.held;
    assert Kept(ls, ls[later].log, term, i, later);
    if !Has(ls[later].log, term, i) {
      var u :| term < u < later && Lacks(ls, u, term, i);
      Complete(w, term, i, u);
      assert false;
    }
  }

  ghost predicate Holds(w: World, p: nat, term: int, i: int) {
    && p < |w.peers| && 1 <= i
    && w.peers[p].node.currentTerm == term && Has(w.peers[p].node.logs, term, i)
  }

  lemma HoldsOnRecord(w: World, p: nat, term: int, i: int)
    requires Inv(w) && Holds(w, p, term, i)
    ensures Holding(p, term, i) in w.hist.held
    ensures term in w.hist.leaders && Has(w.hist.leaders[term].log, term, i)
  {
    assert InvHeld(w);
    assert Holding(p, term, i) in Holdings(p, w.peers[p].node);
    hide Inv;
  }

  // An entry of a term that a majority held, each at some moment while in that term, is
  // in the log of every leader of every later term.
  lemma LeaderCompleteness(cfg: Config, ws: seq<World>, acts: seq<Action>,
                           term: int, i: int, holders: set<nat>, b: nat, p: nat, later: int)
    requires IsRun(cfg, ws, acts)
    requires Majority(holders, cfg.n) && forall v :: v in holders ==> v < cfg.n
    requires forall v :: v in holders ==> exists a :: 0 <= a < |ws| && Holds(ws[a], v, term, i)
    requires b < |ws| && Leads(ws[b], p, later) && term < later
    ensures Has(ws[b].peers[p].node.logs, term, i)
  {
    hide IsRun, Inv, Later, Holds;
    var e := |ws| - 1;
    var w := ws[e];
    RunInv(cfg, ws, acts, b, e);
    LeadsOnRecord(ws[b], p, later);
    AllOnRecord(cfg, ws, acts, term, i, holders);
    assert later in w.hist.leaders && LongerLog(ws[b].hist.leaders[later], w.hist.leaders[later], later) by {
      LaterAt(ws[b].hist.leaders, w.hist.leaders, later);
    }
    assert InvLeaders(w) && InvVouched(w) by { LeaderLayers(w); }
    hide InvLeaders, InvVouched;
    Complete(w, term, i, later);
  }

  lemma LaterAt(ls: Leaders, ls': Leaders, t: int)
    requires Later(ls, ls') && t in ls
    ensures t in ls' && LongerLog(ls[t], ls'[t], t)
  {
  }

  lemma LeaderLayers(w: World)
    requires Inv(w)
    ensures InvLeaders(w) && InvVouched(w)
  {
  }

  lemma AllOnRecord(cfg: Config, ws: seq<World>, acts: seq<Action>, term: int, i: int, holders: set<nat>)
    requires IsRun(cfg, ws, acts)
    requires Majority(holders, cfg.n) && forall v :: v in holders ==> v < cfg.n
    requires forall v :: v in holders ==> exists a :: 0 <= a < |ws| && Holds(ws[a], v, term, i)
    ensures Quorate(ws[|ws| - 1], term, i)
  {
    hide IsRun, Inv, Later, Holds;
    var e := |ws| - 1;
    var w := ws[e];
    RunInv(cfg, ws, acts, e, e);
    forall v | v in holders
      ensures Holding(v, term, i) in w.hist.held && term in w.hist.leaders && Has(w.hist.leaders[term].log, term, i)
    {
      var a :| 0 <= a < |ws| && Holds(ws[a], v, term, i);
      RunInv(cfg, ws, acts, a, e);
      HoldsOnRecord(ws[a], v, term, i);
      LaterAt(ws[a].hist.leaders, w.hist.leaders, term);
    }
    assert holders <= Holders(w.hist.held, |w.peers|, term, i);
    SubsetSize(holders, Holders(w.hist.held, |w.peers|, term, i));
    var v :| v in holders;
  }
}
