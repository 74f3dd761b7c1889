/**
  Every step keeps the invariant of the source as written.  Most steps are passive:
  one peer moves to a later term, casts a free vote, adopts part of a leader's log or
  only touches volatile fields.  Standing for election, counting a vote, winning, and
  the leader's own append are treated one by one.
 */
module RaftSteps {
  import opened RaftNode
  import opened RaftProtocol
  import opened RaftInvariant
  import opened Quorum

  // ------------------------------------------------------------ passive steps

  // What peer p may become without changing who leads, stands or is counted.
  ghost predicate Passive(w: World, p: nat, n': Node) {
    && p < |w.peers|
    && var n := w.peers[p].node;
    && Local(n', p, |w.peers|)
    && n.currentTerm <= n'.currentTerm
    && (n.currentTerm == n'.currentTerm ==> n'.votedFor == n.votedFor || n.votedFor == -1)
    && (n'.state == Follower
        || (n'.state == n.state && n'.currentTerm == n.currentTerm && n'.votedFor == n.votedFor
            && n'.logs == n.logs && n'.grantedVotes == n.grantedVotes))
    && Grown(w.hist.leaders, n'.logs)
    && (forall x :: x in w.hist.held && x.peer == p ==>
          Kept(w.hist.leaders, n'.logs, x.term, x.index, n'.currentTerm + 1))
  }

  ghost predicate NewCallOk(w: World, key: VoteKey, call: VoteCall) {
    && CallOk(w, key, call)
    && (call.Answered? && call.reply.voteGranted && key.term !in w.hist.leaders ==>
          Vouches(w.hist.leaders, w.hist.held, key.peer, key.term, w.hist.ballots[Election(key.cand, key.term)].log))
  }

  ghost predicate PassiveStep(w: World, w': World, p: nat) {
    && |w'.peers| == |w.peers| && p < |w.peers|
    && Passive(w, p, w'.peers[p].node)
    && (forall q :: 0 <= q < |w.peers| && q != p ==> w'.peers[q] == w.peers[q])
    && w'.peers[p].disk == DurableOf(w'.peers[p].node)
    && w'.hist == Note(w.hist, p, w'.peers[p].node)
    && (forall key :: key in w'.votes ==>
          (key in w.votes && w'.votes[key] == w.votes[key]) || NewCallOk(w', key, w'.votes[key]))
    && (forall m :: m in w'.appends ==> m in w.appends || MsgOk(w', m))
    && (forall a :: a in w'.acks ==> a in w.acks || AckOk(w', a))
  }

  lemma PassiveLocal(w: World, w': World, p: nat)
    requires InvLocal(w) && PassiveStep(w, w', p)
    ensures InvLocal(w')
  {
  }

  lemma PassiveBound(w: World, w': World, p: nat)
    requires InvLocal(w) && InvBound(w) && PassiveStep(w, w', p)
    ensures InvBound(w')
    ensures forall s :: s in w.hist.bound ==> s in w'.hist.bound && w'.hist.bound[s] == w.hist.bound[s]
  {
  }

  lemma PassiveBallots(w: World, w': World, p: nat)
    requires InvBallots(w) && InvLeaders(w) && PassiveStep(w, w', p)
    requires forall s :: s in w.hist.bound ==> s in w'.hist.bound && w'.hist.bound[s] == w.hist.bound[s]
    ensures InvBallots(w') && InvLeaders(w')
  {
  }

  lemma PassiveCalls(w: World, w': World, p: nat)
    requires InvCalls(w) && PassiveStep(w, w', p)
    requires forall s :: s in w.hist.bound ==> s in w'.hist.bound && w'.hist.bound[s] == w.hist.bound[s]
    ensures InvCalls(w')
  {
    forall key | key in w'.votes ensures CallOk(w', key, w'.votes[key]) {
      if key in w.votes && w'.votes[key] == w.votes[key] {
        assert CallOk(w, key, w.votes[key]);
      } else {
        assert NewCallOk(w', key, w'.votes[key]);
      }
    }
  }

  lemma PassiveRoles(w: World, w': World, p: nat)
    requires InvRoles(w) && PassiveStep(w, w', p)
    ensures InvRoles(w')
  {
  }

  lemma PassiveLogs(w: World, w': World, p: nat)
    requires InvLogs(w) && PassiveStep(w, w', p)
    ensures InvLogs(w')
  {
    assert w'.hist.leaders == w.hist.leaders && w'.hist.ballots == w.hist.ballots;
  }

  // A peer that has voted in a term can hold nothing new of earlier terms.
  lemma PassiveHeld(w: World, w': World, p: nat)
    requires InvLocal(w) && InvHeld(w) && PassiveStep(w, w', p)
    ensures InvHeld(w')
    ensures forall x :: x in w'.hist.held && x !in w.hist.held ==> x.peer == p && x.term == w'.peers[p].node.currentTerm
  {
    var n' := w'.peers[p].node;
    forall x | x in w'.hist.held
      ensures x.peer < |w'.peers| && 1 <= x.term <= w'.peers[x.peer].node.currentTerm && 1 <= x.index
      ensures x.term in w'.hist.leaders && Has(w'.hist.leaders[x.term].log, x.term, x.index)
      ensures Kept(w'.hist.leaders, w'.peers[x.peer].node.logs, x.term, x.index, w'.peers[x.peer].node.currentTerm + 1)
    {
      if x in w.hist.held {
        assert Kept(w.hist.leaders, w'.peers[x.peer].node.logs, x.term, x.index, w'.peers[x.peer].node.currentTerm + 1);
      } else {
        assert x in Holdings(p, n');
      }
    }
  }

  // A voter bound in a term vouches for the same as before, for the same log or a longer one.
  lemma StillVouches(w: World, w': World, p: nat, v: nat, term: int, log: seq<LogEntry>, log': seq<LogEntry>)
    requires v < |w'.peers| && InvBound(w') && Seat(v, term) in w'.hist.bound
    requires Later(w.hist.leaders, w'.hist.leaders)
    requires Vouches(w.hist.leaders, w.hist.held, v, term, log) && Agree(log, log', |log|)
    requires forall x :: x in w'.hist.held && x !in w.hist.held ==>
      x.peer == p && p < |w'.peers| && x.term == w'.peers[p].node.currentTerm
    ensures Vouches(w'.hist.leaders, w'.hist.held, v, term, log')
  {
    var ls, ls' := w.hist.leaders, w'.hist.leaders;
    forall x | x in w'.hist.held && x.peer == v && x.term < term ensures Kept(ls', log', x.term, x.index, term) {
      assert Kept(ls, log, x.term, x.index, term);
      KeptLater(ls, ls', log, x.term, x.index, term);
    }
  }

  lemma PassiveVouched(w: World, w': World, p: nat)
    requires InvBallots(w) && InvLeaders(w) && InvCalls(w) && InvVouched(w) && PassiveStep(w, w', p)
    requires InvBound(w')
    requires forall s :: s in w.hist.bound ==> s in w'.hist.bound
    requires forall x :: x in w'.hist.held && x !in w.hist.held ==>
      x.peer == p && x.term == w'.peers[p].node.currentTerm
    ensures InvVouched(w')
  {
    hide Vouches, InvBound, Kept, Passive, GoodLog, MsgOk, AckOk, Holdings;
    var h, h' := w.hist, w'.hist;
    forall key | key in w'.votes && w'.votes[key].Answered? && w'.votes[key].reply.voteGranted
                 && key.term !in h'.leaders && Election(key.cand, key.term) in h'.ballots
      ensures Vouches(h'.leaders, h'.held, key.peer, key.term, h'.ballots[Election(key.cand, key.term)].log)
    {
      if key in w.votes && w'.votes[key] == w.votes[key] {
        var log := h.ballots[Election(key.cand, key.term)].log;
        assert CallOk(w, key, w.votes[key]);
        StillVouches(w, w', p, key.peer, key.term, log, log);
      }
    }
    forall e, v: nat | e in h'.ballots && e.term !in h'.leaders && v in h'.ballots[e].counted
      ensures Vouches(h'.leaders, h'.held, v, e.term, h'.ballots[e].log)
    {
      StillVouches(w, w', p, v, e.term, h.ballots[e].log, h.ballots[e].log);
    }
    forall t, v: nat | t in h'.leaders && v in h'.leaders[t].electors
      ensures Vouches(h'.leaders, h'.held, v, t, h'.leaders[t].log)
    {
      StillVouches(w, w', p, v, t, h.leaders[t].log, h.leaders[t].log);
    }
  }

  lemma PassiveKeeps(w: World, w': World, p: nat)
    requires Inv(w) && PassiveStep(w, w', p)
    ensures Inv(w')
    ensures w'.hist.leaders == w.hist.leaders && w.hist.held <= w'.hist.held
  {
    hide InvLocal, InvBound, InvBallots, InvCalls, InvLeaders, InvRoles, InvLogs, InvHeld, InvVouched;
    PassiveLocal(w, w', p);
    PassiveBound(w, w', p);
    PassiveBallots(w, w', p);
    PassiveCalls(w, w', p);
    PassiveRoles(w, w', p);
    PassiveLogs(w, w', p);
    PassiveHeld(w, w', p);
    PassiveVouched(w, w', p);
  }

  // -------------------------------------------------------- standing for election

  // What a peer held before a term that has no leader yet is in its log, or was lacked earlier.
  lemma OwnLogVouches(w: World, p: nat, term: int)
    requires InvHeld(w) && p < |w.peers|
    requires w.peers[p].node.currentTerm <= term && term !in w.hist.leaders
    ensures Vouches(w.hist.leaders, w.hist.held, p, term, w.peers[p].node.logs)
  {
    forall x | x in w.hist.held && x.peer == p && x.term < term
      ensures Kept(w.hist.leaders, w.peers[p].node.logs, x.term, x.index, term)
    {
      if !Has(w.peers[p].node.logs, x.term, x.index) {
        var u :| x.term < u < w.peers[p].node.currentTerm + 1 && Lacks(w.hist.leaders, u, x.term, x.index);
        assert x.term < u < term;
      }
    }
  }

  ghost predicate SamePeersBut(w: World, w': World, p: nat) {
    && |w'.peers| == |w.peers| && p < |w.peers|
    && forall q :: 0 <= q < |w.peers| && q != p ==> w'.peers[q] == w.peers[q]
  }

  // From Follower with its own vote to Candidate.
  ghost predicate StandStep(w: World, w': World, p: nat) {
    && SamePeersBut(w, w', p)
    && var n := w.peers[p].node;
    && n.me == p && n.state == Follower && n.votedFor == p && n.currentTerm >= 1
    && Election(p, n.currentTerm) !in w.hist.ballots
    && TermsUpTo(n.logs, n.currentTerm - 1)
    && w'.peers[p] == w.peers[p].(node := n.(state := Candidate, grantedVotes := 1))
    && w'.hist == w.hist.(ballots := w.hist.ballots[Election(p, n.currentTerm) := Ballot(n.logs, {p})])
    && w'.appends == w.appends && w'.acks == w.acks
    && |n.logs| > 0
    && w'.votes == w.votes + Calls(|w.peers|, GenRequestVoteArgs(n))
  }

  lemma StandLocal(w: World, w': World, p: nat)
    requires InvLocal(w) && InvBound(w) && StandStep(w, w', p)
    ensures InvLocal(w') && InvBound(w')
  {
    hide Shape, TermsUpTo, Calls;
  }

  lemma StandBallots(w: World, w': World, p: nat)
    requires InvBound(w) && InvBallots(w) && InvLeaders(w) && StandStep(w, w', p)
    ensures InvBallots(w') && InvLeaders(w')
  {
    hide TermsUpTo, Calls;
    var s := Seat(p, w.peers[p].node.currentTerm);
    assert s in w.hist.bound && w.hist.bound[s] == p;
    forall e | e in w'.hist.ballots
      ensures e.cand < |w'.peers| && e.term <= w'.peers[e.cand].node.currentTerm
      ensures e.cand in w'.hist.ballots[e].counted
      ensures Votes(w'.hist.bound, w'.hist.ballots[e].counted, e.term, e.cand, |w'.peers|)
    {
      if e in w.hist.ballots {
        assert Votes(w.hist.bound, w.hist.ballots[e].counted, e.term, e.cand, |w.peers|);
      }
    }
  }

  lemma StandRoles(w: World, w': World, p: nat)
    requires InvLocal(w) && InvLeaders(w) && InvRoles(w) && StandStep(w, w', p)
    ensures InvRoles(w')
  {
  }

  lemma StandCalls(w: World, w': World, p: nat)
    requires InvCalls(w) && StandStep(w, w', p)
    ensures InvCalls(w')
  {
    var n := w.peers[p].node;
    forall key | key in w'.votes ensures CallOk(w', key, w'.votes[key]) {
      if key !in Calls(|w.peers|, GenRequestVoteArgs(n)) {
        assert CallOk(w, key, w.votes[key]);
      }
    }
  }

  lemma StandLogs(w: World, w': World, p: nat)
    requires InvLocal(w) && InvLogs(w) && InvHeld(w) && StandStep(w, w', p)
    ensures InvLogs(w') && InvHeld(w')
  {
    hide Kept, Piece, Grown;
    assert Holdings(p, w'.peers[p].node) == Holdings(p, w.peers[p].node);
  }

  lemma StandVouched(w: World, w': World, p: nat)
    requires InvCalls(w) && InvVouched(w) && StandStep(w, w', p)
    requires w.peers[p].node.currentTerm in w.hist.leaders ||
             Vouches(w.hist.leaders, w.hist.held, p, w.peers[p].node.currentTerm, w.peers[p].node.logs)
    ensures InvVouched(w')
  {
    hide Vouches;
  }

  lemma StandKeeps(w: World, w': World, p: nat)
    requires Inv(w) && StandStep(w, w', p)
    ensures Inv(w')
  {
    hide InvLocal, InvBound, InvBallots, InvCalls, InvLeaders, InvRoles, InvLogs, InvHeld, InvVouched;
    var term := w.peers[p].node.currentTerm;
    if term !in w.hist.leaders { OwnLogVouches(w, p, term); }
    StandLocal(w, w', p);
    StandBallots(w, w', p);
    StandRoles(w, w', p);
    StandCalls(w, w', p);
    StandLogs(w, w', p);
    StandVouched(w, w', p);
  }

  // ------------------------------------------------------------- counting a vote

  ghost predicate CountStep(w: World, w': World, key: VoteKey) {
    && SamePeersBut(w, w', key.cand)
    && key in w.votes && w.votes[key].Answered? && w.votes[key].reply.voteGranted
    && var n := w.peers[key.cand].node;
    && var e := Election(key.cand, key.term);
    && n.state == Candidate && n.currentTerm == key.term && e in w.hist.ballots
    && w'.peers[key.cand] == w.peers[key.cand].(node := n.(grantedVotes := n.grantedVotes + 1))
    && var b := w.hist.ballots[e];
    && w'.hist == w.hist.(ballots := w.hist.ballots[e := b.(counted := b.counted + {key.peer})])
    && w'.votes == w.votes - {key} && w'.appends == w.appends && w'.acks == w.acks
  }

  lemma CallIsOk(w: World, key: VoteKey)
    requires InvCalls(w) && key in w.votes
    ensures CallOk(w, key, w.votes[key])
  {
  }

  lemma CountLocal(w: World, w': World, key: VoteKey)
    requires InvLocal(w) && InvBound(w) && CountStep(w, w', key)
    ensures InvLocal(w') && InvBound(w')
  {
    hide Shape, TermsUpTo;
  }

  lemma CountBallots(w: World, w': World, key: VoteKey)
    requires InvBallots(w) && InvLeaders(w) && CountStep(w, w', key) && CallOk(w, key, w.votes[key])
    ensures InvBallots(w') && InvLeaders(w')
  {
    forall e | e in w'.hist.ballots
      ensures e.cand < |w'.peers| && e.term <= w'.peers[e.cand].node.currentTerm
      ensures e.cand in w'.hist.ballots[e].counted
      ensures Votes(w'.hist.bound, w'.hist.ballots[e].counted, e.term, e.cand, |w'.peers|)
    {
      assert Votes(w.hist.bound, w.hist.ballots[e].counted, e.term, e.cand, |w.peers|);
    }
  }

  // Each peer of an election has one call, and the call is gone once it is counted.
  lemma CountCalls(w: World, w': World, key: VoteKey)
    requires InvCalls(w) && InvRoles(w) && CountStep(w, w', key)
    ensures InvCalls(w') && InvRoles(w')
  {
    assert CallOk(w, key, w.votes[key]);
    forall k | k in w'.votes ensures CallOk(w', k, w'.votes[k]) {
      assert CallOk(w, k, w.votes[k]);
    }
  }

  lemma CountLogs(w: World, w': World, key: VoteKey)
    requires InvLogs(w) && InvHeld(w) && CountStep(w, w', key)
    ensures InvLogs(w') && InvHeld(w')
  {
    hide Kept, Piece, Grown, Shape;
    var c := key.cand;
    assert Holdings(c, w'.peers[c].node) == Holdings(c, w.peers[c].node);
  }

  lemma CountVouched(w: World, w': World, key: VoteKey)
    requires InvVouched(w) && CountStep(w, w', key)
    ensures InvVouched(w')
  {
    hide Vouches;
  }

  lemma CountKeeps(w: World, w': World, key: VoteKey)
    requires Inv(w) && CountStep(w, w', key)
    ensures Inv(w')
  {
    hide InvLocal, InvBound, InvBallots, InvCalls, InvLeaders, InvRoles, InvLogs, InvHeld, InvVouched;
    assert CallOk(w, key, w.votes[key]) by { CallIsOk(w, key); }
    CountLocal(w, w', key);
    CountBallots(w, w', key);
    CountCalls(w, w', key);
    CountLogs(w, w', key);
    CountVouched(w, w', key);
  }

  // ------------------------------------------------------------------- winning

  ghost predicate CrownStep(w: World, w': World, p: nat) {
    && SamePeersBut(w, w', p)
    && var n, n' := w.peers[p].node, w'.peers[p].node;
    && var e := Election(p, n.currentTerm);
    && n.state == Candidate && e in w.hist.ballots && Majority(w.hist.ballots[e].counted, |w.peers|)
    && n'.state == Leader && Local(n', p, |w.peers|)
    && n'.currentTerm == n.currentTerm && n'.votedFor == n.votedFor && n'.logs == n.logs
    && w'.peers[p].disk == w.peers[p].disk
    && w'.hist == w.hist.(leaders := w.hist.leaders[n.currentTerm := Leadership(p, w.hist.ballots[e].counted, n.logs)])
    && w'.votes == w.votes && w'.appends == w.appends && w'.acks == w.acks
  }

  // Two majorities of voters, one vote each: the term had no leader before.
  lemma OneWinner(w: World, p: nat)
    requires InvBallots(w) && InvLeaders(w) && InvRoles(w) && p < |w.peers|
    requires w.peers[p].node.state == Candidate
    requires Election(p, w.peers[p].node.currentTerm) in w.hist.ballots
    requires Majority(w.hist.ballots[Election(p, w.peers[p].node.currentTerm)].counted, |w.peers|)
    ensures w.peers[p].node.currentTerm !in w.hist.leaders
  {
    var t := w.peers[p].node.currentTerm;
    if t in w.hist.leaders {
      var v := Overlap(w.hist.ballots[Election(p, t)].counted, w.hist.leaders[t].electors, |w.peers|);
      assert false;
    }
  }

  lemma CrownLocal(w: World, w': World, p: nat)
    requires InvLocal(w) && InvBound(w) && CrownStep(w, w', p)
    ensures InvLocal(w') && InvBound(w')
  {
    hide Shape, TermsUpTo;
  }

  lemma CrownBallots(w: World, w': World, p: nat)
    requires InvBallots(w) && CrownStep(w, w', p)
    ensures InvBallots(w')
  {
    hide Local;
  }

  lemma CrownLeaders(w: World, w': World, p: nat)
    requires InvBallots(w) && InvLeaders(w) && CrownStep(w, w', p) && w.peers[p].node.currentTerm >= 1
    ensures InvLeaders(w')
  {
    hide Local;
  }

  lemma CrownElection(w: World, w': World, p: nat)
    requires InvLocal(w) && InvBound(w) && InvBallots(w) && InvLeaders(w) && CrownStep(w, w', p)
    requires w.peers[p].node.currentTerm >= 1
    ensures InvLocal(w') && InvBound(w') && InvBallots(w') && InvLeaders(w')
  {
    hide InvLocal, InvBound, InvBallots, InvLeaders, CrownStep;
    CrownLocal(w, w', p);
    CrownBallots(w, w', p);
    CrownLeaders(w, w', p);
  }

  lemma CrownRoles(w: World, w': World, p: nat)
    requires InvCalls(w) && InvRoles(w) && CrownStep(w, w', p)
    requires w.peers[p].node.currentTerm !in w.hist.leaders
    ensures InvCalls(w') && InvRoles(w')
  {
    hide Local;
    forall k | k in w'.votes ensures CallOk(w', k, w'.votes[k]) {
      assert CallOk(w, k, w.votes[k]);
    }
  }

  lemma CrownGrown(w: World, w': World, p: nat)
    requires InvLogs(w) && InvRoles(w) && CrownStep(w, w', p)
    requires w.peers[p].node.currentTerm !in w.hist.leaders
    ensures Later(w.hist.leaders, w'.hist.leaders)
    ensures forall log | Grown(w.hist.leaders, log) :: Grown(w'.hist.leaders, log)
    ensures var n := w.peers[p].node; GoodLog(w'.hist.leaders, n.logs, n.currentTerm)
  {
    hide Local;
    var ls, ls', n := w.hist.leaders, w'.hist.leaders, w.peers[p].node;
    forall log | Grown(ls, log) ensures Grown(ls', log) { GrownLater(ls, ls', log); }
    assert GoodLog(ls, w.hist.ballots[Election(p, n.currentTerm)].log, n.currentTerm - 1);
    hide Grown, Shape;
  }

  lemma CrownLogs(w: World, w': World, p: nat)
    requires InvLogs(w) && InvRoles(w) && CrownStep(w, w', p)
    requires w.peers[p].node.currentTerm !in w.hist.leaders
    ensures InvLogs(w') && Later(w.hist.leaders, w'.hist.leaders)
  {
    hide Grown, Shape, Local, InvRoles, Later;
    CrownGrown(w, w', p);
  }

  lemma CrownHeld(w: World, w': World, p: nat)
    requires InvHeld(w) && CrownStep(w, w', p) && Later(w.hist.leaders, w'.hist.leaders)
    ensures InvHeld(w')
  {
    hide Local;
    assert Holdings(p, w'.peers[p].node) == Holdings(p, w.peers[p].node);
    forall x | x in w'.hist.held
      ensures Kept(w'.hist.leaders, w'.peers[x.peer].node.logs, x.term, x.index, w'.peers[x.peer].node.currentTerm + 1)
    {
      KeptLater(w.hist.leaders, w'.hist.leaders, w.peers[x.peer].node.logs, x.term, x.index,
                w.peers[x.peer].node.currentTerm + 1);
    }
  }

  lemma CrownVouched(w: World, w': World, p: nat)
    requires InvVouched(w) && InvRoles(w) && CrownStep(w, w', p) && Later(w.hist.leaders, w'.hist.leaders)
    requires w.peers[p].node.currentTerm !in w.hist.leaders
    ensures InvVouched(w')
  {
    hide Local;
    var ls, ls', held := w.hist.leaders, w'.hist.leaders, w.hist.held;
    forall v: nat, t: int, log | Vouches(ls, held, v, t, log) ensures Vouches(ls', held, v, t, log) {
      forall x | x in held && x.peer == v && x.term < t ensures Kept(ls', log, x.term, x.index, t) {
        KeptLater(ls, ls', log, x.term, x.index, t);
      }
    }
    hide Vouches;
  }

  lemma CrownKeeps(w: World, w': World, p: nat)
    requires Inv(w) && CrownStep(w, w', p) && w.peers[p].node.currentTerm >= 1
    ensures Inv(w') && Later(w.hist.leaders, w'.hist.leaders)
    ensures w.peers[p].node.currentTerm !in w.hist.leaders
  {
    hide InvLocal, InvBound, InvBallots, InvCalls, InvLeaders, InvRoles, InvLogs, InvHeld, InvVouched;
    OneWinner(w, p);
    CrownElection(w, w', p);
    CrownRoles(w, w', p);
    CrownLogs(w, w', p);
    CrownHeld(w, w', p);
    CrownVouched(w, w', p);
  }

  // -------------------------------------------------------- the leader's append

  ghost predicate GrowStep(w: World, w': World, p: nat, entry: LogEntry) {
    && SamePeersBut(w, w', p)
    && var n, n' := w.peers[p].node, w'.peers[p].node;
    && n.state == Leader && n.currentTerm in w.hist.leaders
    && entry.term == n.currentTerm && entry.index == |n.logs|
    && n'.state == Leader && Local(n', p, |w.peers|)
    && n'.currentTerm == n.currentTerm && n'.votedFor == n.votedFor && n'.logs == n.logs + [entry]
    && w'.peers[p].disk == DurableOf(n')
    && w'.hist == w.hist.(leaders := w.hist.leaders[n.currentTerm := w.hist.leaders[n.currentTerm].(log := n'.logs)],
                          held := w.hist.held + Holdings(p, n'))
    && w'.votes == w.votes && w'.appends == w.appends && w'.acks == w.acks
  }

  lemma GrowLocal(w: World, w': World, p: nat, entry: LogEntry)
    requires InvLocal(w) && InvBound(w) && GrowStep(w, w', p, entry)
    ensures InvLocal(w') && InvBound(w')
  {
    hide Shape, TermsUpTo, Holdings;
  }

  lemma GrowBallots(w: World, w': World, p: nat, entry: LogEntry)
    requires InvBallots(w) && GrowStep(w, w', p, entry)
    ensures InvBallots(w')
  {
    hide Local, Holdings;
  }

  lemma GrowLeaders(w: World, w': World, p: nat, entry: LogEntry)
    requires InvLeaders(w) && GrowStep(w, w', p, entry)
    ensures InvLeaders(w')
  {
    hide Local, Holdings, Majority;
  }

  lemma GrowElection(w: World, w': World, p: nat, entry: LogEntry)
    requires InvLocal(w) && InvBound(w) && InvBallots(w) && InvLeaders(w) && GrowStep(w, w', p, entry)
    ensures InvLocal(w') && InvBound(w') && InvBallots(w') && InvLeaders(w')
  {
    hide InvLocal, InvBound, InvBallots, InvLeaders, GrowStep;
    GrowLocal(w, w', p, entry);
    GrowBallots(w, w', p, entry);
    GrowLeaders(w, w', p, entry);
  }

  lemma GrowRoles(w: World, w': World, p: nat, entry: LogEntry)
    requires InvCalls(w) && InvRoles(w) && GrowStep(w, w', p, entry)
    ensures InvCalls(w') && InvRoles(w')
  {
    hide Local, Holdings;
    forall k | k in w'.votes ensures CallOk(w', k, w'.votes[k]) {
      assert CallOk(w, k, w.votes[k]);
    }
  }

  lemma GrowLater(w: World, w': World, p: nat, entry: LogEntry)
    requires InvRoles(w) && GrowStep(w, w', p, entry)
    ensures Later(w.hist.leaders, w'.hist.leaders)
  {
    hide Local, Holdings;
  }

  lemma GrowGrown(w: World, w': World, p: nat, entry: LogEntry)
    requires InvLogs(w) && InvRoles(w) && GrowStep(w, w', p, entry) && Later(w.hist.leaders, w'.hist.leaders)
    ensures forall log | Grown(w.hist.leaders, log) :: Grown(w'.hist.leaders, log)
    ensures GoodLog(w'.hist.leaders, w'.peers[p].node.logs, w.peers[p].node.currentTerm)
  {
    var ls, ls', n, n' := w.hist.leaders, w'.hist.leaders, w.peers[p].node, w'.peers[p].node;
    forall log | Grown(ls, log) ensures Grown(ls', log) { GrownLater(ls, ls', log); }
    assert Grown(ls', n'.logs) by {
      assert Grown(ls', n.logs);
    }
  }

  lemma GrowLogs(w: World, w': World, p: nat, entry: LogEntry)
    requires InvLogs(w) && InvRoles(w) && GrowStep(w, w', p, entry) && Later(w.hist.leaders, w'.hist.leaders)
    ensures InvLogs(w')
  {
    hide Grown, Shape, Local, Holdings;
    var ls, ls' := w.hist.leaders, w'.hist.leaders;
    GrowGrown(w, w', p, entry);
    forall m | MsgOk(w, m) ensures MsgOk(w', m) {
      assert LongerLog(ls[m.args.term], ls'[m.args.term], m.args.term);
    }
    hide Piece;
  }

  lemma GrowHeld(w: World, w': World, p: nat, entry: LogEntry)
    requires InvLocal(w) && InvRoles(w) && InvHeld(w) && GrowStep(w, w', p, entry)
    requires Later(w.hist.leaders, w'.hist.leaders) && w.peers[p].node.currentTerm >= 1
    ensures InvHeld(w')
    ensures forall x :: x in w'.hist.held && x !in w.hist.held ==> x.peer == p && x.term == w'.peers[p].node.currentTerm
  {
    hide Local;
    var ls, ls', n' := w.hist.leaders, w'.hist.leaders, w'.peers[p].node;
    forall x | x in w'.hist.held
      ensures x.peer < |w'.peers| && 1 <= x.term <= w'.peers[x.peer].node.currentTerm && 1 <= x.index
      ensures x.term in ls' && Has(ls'[x.term].log, x.term, x.index)
      ensures Kept(ls', w'.peers[x.peer].node.logs, x.term, x.index, w'.peers[x.peer].node.currentTerm + 1)
    {
      if x in w.hist.held {
        assert LongerLog(ls[x.term], ls'[x.term], x.term);
        KeptLater(ls, ls', w.peers[x.peer].node.logs, x.term, x.index, w.peers[x.peer].node.currentTerm + 1);
      } else {
        assert x in Holdings(p, n');
      }
    }
  }

  lemma GrowVouched(w: World, w': World, p: nat, entry: LogEntry)
    requires InvBallots(w) && InvLeaders(w) && InvCalls(w) && InvRoles(w) && InvVouched(w) && GrowStep(w, w', p, entry)
    requires InvBound(w') && Later(w.hist.leaders, w'.hist.leaders)
    requires forall x :: x in w'.hist.held && x !in w.hist.held ==>
      x.peer == p && x.term == w'.peers[p].node.currentTerm
    ensures InvVouched(w')
  {
    hide Vouches, InvBound, Holdings, Local;
    var h, h' := w.hist, w'.hist;
    forall key | key in w'.votes && w'.votes[key].Answered? && w'.votes[key].reply.voteGranted
                 && key.term !in h'.leaders && Election(key.cand, key.term) in h'.ballots
      ensures Vouches(h'.leaders, h'.held, key.peer, key.term, h'.ballots[Election(key.cand, key.term)].log)
    {
      var log := h.ballots[Election(key.cand, key.term)].log;
      assert CallOk(w, key, w.votes[key]);
      StillVouches(w, w', p, key.peer, key.term, log, log);
    }
    forall e, v: nat | e in h'.ballots && e.term !in h'.leaders && v in h'.ballots[e].counted
      ensures Vouches(h'.leaders, h'.held, v, e.term, h'.ballots[e].log)
    {
      StillVouches(w, w', p, v, e.term, h.ballots[e].log, h.ballots[e].log);
    }
    forall t, v: nat | t in h'.leaders && v in h'.leaders[t].electors
      ensures Vouches(h'.leaders, h'.held, v, t, h'.leaders[t].log)
    {
      assert LongerLog(h.leaders[t], h'.leaders[t], t);
      StillVouches(w, w', p, v, t, h.leaders[t].log, h'.leaders[t].log);
    }
  }

  lemma GrowKeeps(w: World, w': World, p: nat, entry: LogEntry)
    requires Inv(w) && GrowStep(w, w', p, entry) && w.peers[p].node.currentTerm >= 1
    ensures Inv(w') && Later(w.hist.leaders, w'.hist.leaders)
  {
    hide InvLocal, InvBound, InvBallots, InvCalls, InvLeaders, InvRoles, InvLogs, InvHeld, InvVouched;
    GrowElection(w, w', p, entry);
    GrowRoles(w, w', p, entry);
    GrowLater(w, w', p, entry);
    GrowLogs(w, w', p, entry);
    GrowHeld(w, w', p, entry);
    GrowVouched(w, w', p, entry);
  }
}
