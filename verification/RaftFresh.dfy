/**
  What a fresh win is good for, exactly.  matchIndex[q] is meant to be the highest entry
  known to be replicated on q.  For the winner of an election that belief stays true,
  whatever the cluster does while the winner leads, if and only if no other server's
  matchIndex lies beyond the log it won with.
 */
module RaftFresh {
  import opened RaftNode
  import opened RaftProtocol
  import opened RaftInvariant
  import opened RaftActions
  import opened RaftBelief

  // A continuation from w.
  ghost predicate IsPath(cfg: Config, w: World, vs: seq<World>, bs: seq<Action>) {
    && |vs| == |bs| + 1 && vs[0] == w
    && forall k :: 0 <= k < |bs| ==> Enabled(vs[k], bs[k]) && vs[k + 1] == Act(cfg, vs[k], bs[k])
  }

  ghost predicate Truthful(w: World, p: nat) {
    p < |w.peers| && forall q: nat :: q < |w.peers| ==> Believes(w.hist.held, w.peers[p].node, q)
  }

  // However the cluster goes on, as long as p leads the term.
  ghost predicate StaysTruthful(cfg: Config, w: World, p: nat, term: int) {
    forall vs, bs :: IsPath(cfg, w, vs, bs) && (forall k :: 0 <= k < |vs| ==> Leads(vs[k], p, term)) ==>
      Truthful(vs[|vs| - 1], p)
  }

  // ------------------------------------------------------------------ nothing beyond

  lemma {:induction false} PathBeliefs(cfg: Config, w: World, vs: seq<World>, bs: seq<Action>, p: nat, term: int,
                                       k: nat)
    requires Inv(w) && TrueAcks(w) && Beliefs(w, p) && cfg.n == |w.peers|
    requires IsPath(cfg, w, vs, bs) && k < |vs| && forall i :: 0 <= i < |vs| ==> Leads(vs[i], p, term)
    ensures Inv(vs[k]) && TrueAcks(vs[k]) && Beliefs(vs[k], p) && |vs[k].peers| == cfg.n
  {
    hide Inv, TrueAcks, Beliefs, Enabled, Act, Later, Leads;
    if k > 0 {
      PathBeliefs(cfg, w, vs, bs, p, term, k - 1);
      ActKeepsInv(cfg, vs[k - 1], bs[k - 1]);
      ActKeepsAcks(cfg, vs[k - 1], bs[k - 1]);
      assert Leads(vs[k - 1 + 1], p, term);
      BeliefsStay(cfg, vs[k - 1], bs[k - 1], p, term);
    }
  }

  // ------------------------------------------------------------------ something beyond

  ghost predicate Leading(w: World, p: nat) {
    PeerOk(w, p) && w.peers[p].node.state == Leader && w.peers[p].node.logs[0].index == 0
  }

  // The leader p accepts commands one after the other.
  ghost function SubmitAll(w: World, p: nat, n: nat): (vs: seq<World>)
    ensures |vs| == n + 1 && vs[0] == w
  {
    if n == 0 then [w]
    else
      var vs := SubmitAll(w, p, n - 1);
      vs + [if PeerOk(vs[n - 1], p) then StepSubmit(vs[n - 1], p, Nil) else vs[n - 1]]
  }

  lemma SubmitOnce(w: World, p: nat)
    requires Leading(w, p)
    ensures var w' := StepSubmit(w, p, Nil);
      && Leading(w', p) && |w'.peers| == |w.peers|
      && var n, n' := w.peers[p].node, w'.peers[p].node;
      && n'.currentTerm == n.currentTerm
      && n'.logs == n.logs + [LogEntry(Nil, n.currentTerm, |n.logs|)]
      && (forall q :: 0 <= q < |n.matchIndex| && q != p ==> n'.matchIndex[q] == n.matchIndex[q])
      && forall x :: x in w'.hist.held ==> x in w.hist.held || x.peer == p
  {
  }

  // After n commands: n more entries of the term, and nothing learned of anyone else.
  ghost predicate Grew(w: World, w': World, p: nat, count: nat) {
    && Leading(w, p) && Leading(w', p) && |w'.peers| == |w.peers|
    && var n, n' := w.peers[p].node, w'.peers[p].node;
    && n'.currentTerm == n.currentTerm && |n'.logs| == |n.logs| + count
    && (forall i :: |n.logs| <= i < |n'.logs| ==> n'.logs[i].term == n.currentTerm)
    && (forall q :: 0 <= q < |n.matchIndex| && q != p ==> n'.matchIndex[q] == n.matchIndex[q])
    && forall x :: x in w'.hist.held ==> x in w.hist.held || x.peer == p
  }

  lemma GrewOnce(w: World, w': World, p: nat, count: nat)
    requires Grew(w, w', p, count)
    ensures PeerOk(w', p) && Grew(w, StepSubmit(w', p, Nil), p, count + 1)
  {
    SubmitOnce(w', p);
    hide StepSubmit;
  }

  lemma {:induction false} SubmitMany(w: World, p: nat, n: nat, k: nat)
    requires Leading(w, p) && k <= n
    ensures Grew(w, SubmitAll(w, p, n)[k], p, k)
    ensures k > 0 ==> PeerOk(SubmitAll(w, p, n)[k - 1], p)
    ensures k > 0 ==> SubmitAll(w, p, n)[k] == StepSubmit(SubmitAll(w, p, n)[k - 1], p, Nil)
    decreases n
  {
    if k < n {
      SubmitMany(w, p, n - 1, k);
    } else if n > 0 {
      SubmitMany(w, p, n - 1, n - 1);
      GrewOnce(w, SubmitAll(w, p, n - 1)[n - 1], p, n - 1);
    }
  }

  lemma SubmitPath(cfg: Config, w: World, p: nat, term: int, n: nat)
    requires Leading(w, p) && w.peers[p].node.currentTerm == term
    ensures IsPath(cfg, w, SubmitAll(w, p, n), seq(n, _ => Submit(p, Nil)))
    ensures forall k :: 0 <= k < n + 1 ==> Leads(SubmitAll(w, p, n)[k], p, term)
  {
    hide StepSubmit, SubmitAll;
    var vs, bs := SubmitAll(w, p, n), seq(n, _ => Submit(p, Nil));
    forall k | 0 <= k < n + 1 ensures Leads(vs[k], p, term) {
      SubmitMany(w, p, n, k);
    }
    forall k | 0 <= k < n ensures Enabled(vs[k], bs[k]) && vs[k + 1] == Act(cfg, vs[k], bs[k]) {
      SubmitMany(w, p, n, k + 1);
    }
  }

  // A leader without an entry of its own term: nobody holds one.
  lemma NobodyHolds(w: World, p: nat, x: Holding)
    requires Inv(w) && p < |w.peers| && w.peers[p].node.state == Leader
    requires TermsUpTo(w.peers[p].node.logs, w.peers[p].node.currentTerm - 1)
    requires x in w.hist.held
    ensures x.term != w.peers[p].node.currentTerm
  {
    LeaderOf(w, p);
    assert InvHeld(w) by { Records(w); }
    hide Inv, Kept;
  }

  // A stale claim becomes false as soon as the log has grown to it.
  lemma TurnsFalse(cfg: Config, w: World, p: nat, q: nat)
    requires Inv(w) && Leading(w, p) && q < |w.peers| && q != p
    requires TermsUpTo(w.peers[p].node.logs, w.peers[p].node.currentTerm - 1)
    requires w.peers[p].node.matchIndex[q] > LastLog(w.peers[p].node).index
    ensures !StaysTruthful(cfg, w, p, w.peers[p].node.currentTerm)
  {
    hide Inv, SubmitAll, TermsUpTo, StepSubmit;
    var n := w.peers[p].node;
    var i, t := n.matchIndex[q], n.currentTerm;
    var count := i + 1 - |n.logs|;
    var vs := SubmitAll(w, p, count);
    SubmitPath(cfg, w, p, t, count);
    SubmitMany(w, p, count, count);
    var w' := vs[count];
    var n' := w'.peers[p].node;
    if Holding(q, t, i) in w.hist.held { NobodyHolds(w, p, Holding(q, t, i)); }
    assert n'.logs[i].term == n'.currentTerm;
    assert !Believes(w'.hist.held, n', q);
    assert vs[|vs| - 1] == w';
  }

  // ------------------------------------------------------------------ at every win

  lemma WinnerLeading(w: World, p: nat, term: int)
    requires Inv(w) && Leads(w, p, term) && w.peers[p].node.commitIndex >= 0
    ensures Leading(w, p)
  {
    hide Inv, TermsUpTo;
    LocalOf(w, p);
    DiskIsMemory(w, p);
    ShapeContiguous(w.peers[p].node.logs);
    hide Shape;
  }

  lemma WinnerCommit(cfg: Config, w: World, a: Action, p: nat, term: int)
    requires Inv(w) && Enabled(w, a) && !Leads(w, p, term) && Leads(Act(cfg, w, a), p, term)
    ensures Act(cfg, w, a).peers[p].node.commitIndex >= 0
  {
    hide Inv;
    if !a.TellVote? {
      OnlyVotesCrown(cfg, w, a, p, term);
      assert false;
    }
    WonByVote(cfg, w, a.key, p, term);
    FirstIsDummy(w, p);
  }

  lemma FreshStays(cfg: Config, w: World, p: nat, term: int)
    requires Inv(w) && TrueAcks(w) && Beliefs(w, p) && cfg.n == |w.peers|
    ensures StaysTruthful(cfg, w, p, term)
  {
    hide Inv, TrueAcks, Beliefs, Leads, Enabled, Act;
    forall vs, bs | IsPath(cfg, w, vs, bs) && (forall i :: 0 <= i < |vs| ==> Leads(vs[i], p, term))
      ensures Truthful(vs[|vs| - 1], p)
    {
      PathBeliefs(cfg, w, vs, bs, p, term, |vs| - 1);
      BeliefsTrue(vs[|vs| - 1], p);
    }
  }

  lemma BeliefsTrue(w: World, p: nat)
    requires Beliefs(w, p)
    ensures Truthful(w, p)
  {
    forall q: nat | q < |w.peers| ensures Believes(w.hist.held, w.peers[p].node, q) {
      assert MatchOk(w.hist.held, w.peers[p].node, q);
    }
  }

  lemma StaleTurns(cfg: Config, w: World, p: nat, term: int)
    requires Inv(w) && Leads(w, p, term) && w.peers[p].node.commitIndex >= 0
    requires TermsUpTo(w.peers[p].node.logs, term - 1) && !NoneBeyond(w.peers[p].node, p)
    ensures !StaysTruthful(cfg, w, p, term)
  {
    hide Inv, TermsUpTo, StaysTruthful;
    WinnerLeading(w, p, term);
    var n := w.peers[p].node;
    var q: nat :| q < |n.matchIndex| && q != p && n.matchIndex[q] > LastLog(n).index;
    TurnsFalse(cfg, w, p, q);
  }

  // In every run, at every win.
  lemma FreshExactly(cfg: Config, ws: seq<World>, acts: seq<Action>, k: nat, p: nat, term: int)
    requires IsRun(cfg, ws, acts) && k < |acts|
    requires !Leads(ws[k], p, term) && Leads(ws[k + 1], p, term)
    ensures NoneBeyond(ws[k + 1].peers[p].node, p) <==> StaysTruthful(cfg, ws[k + 1], p, term)
  {
    hide Inv, Later, TrueAcks, Enabled, Act, TermsUpTo, Shape, NoneBeyond, StaysTruthful;
    RunInv(cfg, ws, acts, k, k + 1);
    RunAcks(cfg, ws, acts, k + 1);
    var w, w' := ws[k], ws[k + 1];
    assert Enabled(w, acts[k]) && w' == Act(cfg, w, acts[k]);
    hide IsRun;
    JustWon(cfg, w, acts[k], p, term);
    LocalOf(w', p);
    if NoneBeyond(w'.peers[p].node, p) {
      WinnerBeliefs(w', p);
      FreshStays(cfg, w', p, term);
    } else {
      WinnerCommit(cfg, w, acts[k], p, term);
      StaleTurns(cfg, w', p, term);
    }
  }
}
