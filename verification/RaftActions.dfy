/**
  Each action of the protocol is one of the steps of RaftSteps, so the invariant holds
  in every state of every run.
 */
module RaftActions {
  import opened RaftNode
  import opened RaftProtocol
  import opened RaftInvariant
  import opened RaftSteps
  import opened Quorum

  // -------------------------------------------------------------- small steps

  // Recording what is already on record changes nothing.
  lemma NoteIdle(w: World, p: nat)
    requires InvBound(w) && InvHeld(w) && p < |w.peers|
    ensures Note(w.hist, p, w.peers[p].node) == w.hist
  {
    var h, n := w.hist, w.peers[p].node;
    assert h.held + Holdings(p, n) == h.held;
    if n.votedFor != -1 {
      assert h.bound[Seat(p, n.currentTerm) := n.votedFor] == h.bound;
    }
  }

  // Volatile fields, a later term, or a free vote: the log stays.
  lemma SameLogPassive(w: World, p: nat, n': Node)
    requires InvLogs(w) && InvHeld(w) && p < |w.peers|
    requires Local(n', p, |w.peers|)
    requires var n := w.peers[p].node;
      && n'.logs == n.logs
      && n.currentTerm <= n'.currentTerm
      && (n.currentTerm == n'.currentTerm ==> n'.votedFor == n.votedFor || n.votedFor == -1)
      && (n'.state == Follower
          || (n'.state == n.state && n'.currentTerm == n.currentTerm && n'.votedFor == n.votedFor
              && n'.grantedVotes == n.grantedVotes))
    ensures Passive(w, p, n')
  {
    hide Local, Grown;
    var n := w.peers[p].node;
    forall x | x in w.hist.held && x.peer == p
      ensures Kept(w.hist.leaders, n'.logs, x.term, x.index, n'.currentTerm + 1)
    {
      assert Kept(w.hist.leaders, n.logs, x.term, x.index, n.currentTerm + 1);
    }
  }

  // A restart from what was written is as passive as the step that wrote it.
  lemma RestartPassive(w: World, p: nat, n': Node)
    requires Passive(w, p, n')
    ensures Passive(w, p, Restart(DurableOf(n'), p, |w.peers|))
  {
  }

  // ------------------------------------------------------------------- voting

  // A candidate whose log is up to date has, or some leader lacked, what the voter held.
  lemma UpToDateVouches(w: World, v: nat, term: int, log: seq<LogEntry>)
    requires InvLocal(w) && InvLogs(w) && InvHeld(w) && v < |w.peers|
    requires w.peers[v].node.currentTerm <= term && term !in w.hist.leaders
    requires GoodLog(w.hist.leaders, log, term - 1)
    requires IsLogUpToDate(w.peers[v].node, log[|log| - 1].index, log[|log| - 1].term)
    ensures Vouches(w.hist.leaders, w.hist.held, v, term, log)
  {
    var ls, mine := w.hist.leaders, w.peers[v].node.logs;
    OwnLogVouches(w, v, term);
    forall x | x in w.hist.held && x.peer == v && x.term < term ensures Kept(ls, log, x.term, x.index, term) {
      if Has(mine, x.term, x.index) {
        UpToDateKeeps(ls, mine, log, x.term, x.index, term);
      }
    }
  }

  lemma UpToDateKeeps(ls: Leaders, mine: seq<LogEntry>, log: seq<LogEntry>, t: int, i: int, term: int)
    requires Shape(mine) && Grown(ls, mine) && GoodLog(ls, log, term - 1)
    requires forall u :: u in ls ==> Shape(ls[u].log)
    requires 1 <= t && Has(mine, t, i)
    requires log[|log| - 1].term > mine[|mine| - 1].term
             || (log[|log| - 1].term == mine[|mine| - 1].term && |log| >= |mine|)
    ensures Kept(ls, log, t, i, term)
  {
    var last := log[|log| - 1].term;
    assert mine[i].term <= mine[|mine| - 1].term;
    if last == mine[|mine| - 1].term {
      assert Agree(log, ls[last].log, |log|) && Agree(mine, ls[last].log, |mine|);
    } else {
      assert Agree(log, ls[last].log, |log|);
      if Has(ls[last].log, t, i) {
        assert Shape(ls[last].log) && ls[last].log[|log| - 1].term == last;
      } else {
        assert t < last < term && Lacks(ls, last, t, i);
      }
    }
  }

  // ------------------------------------------------------- taking entries over

  ghost predicate Matched(n: Node, a: AppendEntriesArgs) {
    && Contiguous(n.logs) && FirstLog(n).index <= a.prevLogIndex
    && IsLogMatched(n, a.prevLogIndex, a.prevLogTerm)
  }

  // Cutting at the first difference and copying the leader's entries from there.
  lemma CutAndCopy(log: seq<LogEntry>, lead: seq<LogEntry>, cut: nat, tail: seq<LogEntry>, m: nat)
    requires Agree(log, lead, cut) && cut + |tail| <= |lead|
    requires forall x :: 0 <= x < |tail| ==> tail[x] == lead[cut + x]
    requires cut < |log| ==> cut < |lead| && log[cut] != lead[cut]
    ensures Agree(log[..cut] + tail, lead, cut + |tail|)
    ensures Agree(log, lead, m) ==> Agree(log[..cut] + tail, log, m)
  {
  }

  lemma PieceTail(ls: Leaders, a: AppendEntriesArgs, k: nat)
    requires Piece(ls, a) && k < |a.entries|
    ensures var lead, at, tail := ls[a.term].log, a.prevLogIndex + 1 + k, a.entries[k..];
      at + |tail| <= |lead| && a.entries[k] == lead[at] && forall x :: 0 <= x < |tail| ==> tail[x] == lead[at + x]
  {
  }

  // After an accepted message the log is the leader's through the message's last entry;
  // wherever it already agreed with the leader, nothing is lost.
  lemma MergeAdopts(ls: Leaders, log: seq<LogEntry>, a: AppendEntriesArgs, m: nat)
    requires GoodLog(ls, log, a.term) && Piece(ls, a) && GoodLog(ls, ls[a.term].log, a.term)
    requires a.prevLogIndex < |log| && log[a.prevLogIndex].term == a.prevLogTerm
    ensures var log' := Merge(log, a.prevLogIndex + 1, a.entries);
      && Agree(log', ls[a.term].log, a.prevLogIndex + |a.entries| + 1)
      && (log' == log || |log'| == a.prevLogIndex + |a.entries| + 1)
      && (Agree(log, ls[a.term].log, m) ==> Agree(log', log, m))
  {
    hide GoodLog, Agree, Piece, FirstNew, Merge;
    PieceNat(ls, a);
    MergeIs(log, a.prevLogIndex + 1, a.entries);
    MatchesThrough(ls, log, a);
    var lead, k := ls[a.term].log, FirstNew(log, a.prevLogIndex + 1, a.entries, 0);
    if k < |a.entries| {
      JunctionAdopts(ls, log, a, m);
    } else if Agree(log, lead, m) {
      AgreeSelf(log, lead, m);
    }
  }

  lemma JunctionAdopts(ls: Leaders, log: seq<LogEntry>, a: AppendEntriesArgs, m: nat)
    requires Piece(ls, a) && a.prevLogIndex < |log|
    requires var k := FirstNew(log, a.prevLogIndex + 1, a.entries, 0);
      k < |a.entries| && Agree(log, ls[a.term].log, a.prevLogIndex + 1 + k)
    ensures var lead, k := ls[a.term].log, FirstNew(log, a.prevLogIndex + 1, a.entries, 0);
      var log' := log[..a.prevLogIndex + 1 + k] + a.entries[k..];
      && Agree(log', lead, a.prevLogIndex + |a.entries| + 1) && |log'| == a.prevLogIndex + |a.entries| + 1
      && (Agree(log, lead, m) ==> Agree(log', log, m))
  {
    hide Agree, Piece, FirstNew;
    PieceNat(ls, a);
    var at, k := a.prevLogIndex + 1, FirstNew(log, a.prevLogIndex + 1, a.entries, 0);
    PieceTail(ls, a, k);
    FirstNewIsFirst(log, at, a.entries, 0);
    CutAndCopy(log, ls[a.term].log, at + k, a.entries[k..], m);
  }

  lemma AgreeSelf(a: seq<LogEntry>, b: seq<LogEntry>, m: int)
    requires Agree(a, b, m)
    ensures Agree(a, a, m)
  {
  }

  lemma MatchesThrough(ls: Leaders, log: seq<LogEntry>, a: AppendEntriesArgs)
    requires GoodLog(ls, log, a.term) && Piece(ls, a) && GoodLog(ls, ls[a.term].log, a.term)
    requires a.prevLogIndex < |log| && log[a.prevLogIndex].term == a.prevLogTerm
    ensures Agree(log, ls[a.term].log, a.prevLogIndex + 1 + FirstNew(log, a.prevLogIndex + 1, a.entries, 0))
  {
    hide Shape, Grown, TermsUpTo, Agree;
    var lead, at := ls[a.term].log, a.prevLogIndex + 1;
    var k := FirstNew(log, at, a.entries, 0);
    FirstNewIsFirst(log, at, a.entries, 0);
    if k > 0 {
      assert a.entries[k - 1] == lead[at + k - 1];
    }
    SameTermSamePrefix(ls, log, lead, at + k - 1);
  }

  lemma PrefixGood(ls: Leaders, log: seq<LogEntry>, lead: seq<LogEntry>, term: int)
    requires GoodLog(ls, lead, term) && |log| > 0 && Agree(log, lead, |log|)
    ensures GoodLog(ls, log, term)
  {
    forall i | 1 <= i < |log| ensures log[i].term in ls && Agree(log, ls[log[i].term].log, i + 1) {
      assert log[i] == lead[i];
    }
  }

  lemma MergeGood(ls: Leaders, log: seq<LogEntry>, a: AppendEntriesArgs)
    requires GoodLog(ls, log, a.term) && Piece(ls, a) && GoodLog(ls, ls[a.term].log, a.term)
    requires a.prevLogIndex < |log| && log[a.prevLogIndex].term == a.prevLogTerm
    ensures GoodLog(ls, Merge(log, a.prevLogIndex + 1, a.entries), a.term)
  {
    hide GoodLog, Agree;
    MergeAdopts(ls, log, a, 0);
    var log' := Merge(log, a.prevLogIndex + 1, a.entries);
    if log' != log {
      PrefixGood(ls, log', ls[a.term].log, a.term);
    }
  }

  // An entry that the merge removed is one the leader lacked.
  lemma MergeKeeps(ls: Leaders, log: seq<LogEntry>, a: AppendEntriesArgs, t: int, i: int, bound: int)
    requires GoodLog(ls, log, a.term) && Piece(ls, a) && GoodLog(ls, ls[a.term].log, a.term)
    requires a.prevLogIndex < |log| && log[a.prevLogIndex].term == a.prevLogTerm
    requires Kept(ls, log, t, i, bound) && bound <= a.term + 1 && t <= a.term
    ensures Kept(ls, Merge(log, a.prevLogIndex + 1, a.entries), t, i, a.term + 1)
  {
    var log', lead := Merge(log, a.prevLogIndex + 1, a.entries), ls[a.term].log;
    if Has(log, t, i) && !Has(log', t, i) {
      if Has(lead, t, i) {
        SameTermSamePrefix(ls, log, lead, i);
        MergeAdopts(ls, log, a, i + 1);
        assert false;
      }
      assert t < a.term < a.term + 1 && Lacks(ls, a.term, t, i);
    }
  }

  lemma LogsAreGood(w: World, p: nat, t: int)
    requires InvLogs(w) && InvLocal(w) && p < |w.peers| && t in w.hist.leaders && w.peers[p].node.currentTerm <= t
    ensures GoodLog(w.hist.leaders, w.peers[p].node.logs, t)
    ensures GoodLog(w.hist.leaders, w.hist.leaders[t].log, t)
  {
    hide Shape, Grown;
  }

  lemma MergeKeepsHeld(w: World, p: nat, a: AppendEntriesArgs)
    requires InvHeld(w) && p < |w.peers| && Piece(w.hist.leaders, a) && w.peers[p].node.currentTerm <= a.term
    requires GoodLog(w.hist.leaders, w.peers[p].node.logs, a.term)
    requires GoodLog(w.hist.leaders, w.hist.leaders[a.term].log, a.term)
    requires a.prevLogIndex < |w.peers[p].node.logs| && w.peers[p].node.logs[a.prevLogIndex].term == a.prevLogTerm
    ensures forall x :: x in w.hist.held && x.peer == p ==>
      Kept(w.hist.leaders, Merge(w.peers[p].node.logs, a.prevLogIndex + 1, a.entries), x.term, x.index, a.term + 1)
  {
    hide GoodLog, Kept, Merge, Piece;
    var n := w.peers[p].node;
    PieceNat(w.hist.leaders, a);
    forall x | x in w.hist.held && x.peer == p
      ensures Kept(w.hist.leaders, Merge(n.logs, a.prevLogIndex + 1, a.entries), x.term, x.index, a.term + 1)
    {
      MergeKeeps(w.hist.leaders, n.logs, a, x.term, x.index, n.currentTerm + 1);
    }
  }

  lemma PieceNat(ls: Leaders, a: AppendEntriesArgs)
    requires Piece(ls, a)
    ensures 0 <= a.prevLogIndex && a.term in ls
  {
  }

  lemma AcceptPassive(w: World, p: nat, a: AppendEntriesArgs, seen: Node)
    requires InvLogs(w) && InvHeld(w) && InvLocal(w) && p < |w.peers|
    requires Piece(w.hist.leaders, a)
    requires Passive(w, p, seen) && seen.state == Follower && seen.currentTerm == a.term
    requires seen.logs == w.peers[p].node.logs
    requires Matched(seen, a)
    ensures Passive(w, p, Accept(seen, a))
  {
    hide InvLogs, InvLocal, InvHeld, Piece, Kept, Grown, Merge;
    var log := w.peers[p].node.logs;
    PieceNat(w.hist.leaders, a);
    LogsAreGood(w, p, a.term);
    MergeGood(w.hist.leaders, log, a);
    MergeKeepsHeld(w, p, a);
  }

  // ------------------------------------------------------------------- actions

  // What every step guarantees about the records.
  ghost predicate Onward(w: World, w': World) {
    && Inv(w') && |w'.peers| == |w.peers|
    && Later(w.hist.leaders, w'.hist.leaders) && w.hist.held <= w'.hist.held
  }

  lemma LaterRefl(ls: Leaders)
    ensures Later(ls, ls)
  {
  }

  lemma PassiveOnward(w: World, w': World, p: nat)
    requires Inv(w) && PassiveStep(w, w', p)
    ensures Onward(w, w')
  {
    hide Inv, PassiveStep, Later;
    PassiveKeeps(w, w', p);
    LaterRefl(w.hist.leaders);
    assert |w'.peers| == |w.peers| by { PassiveSize(w, w', p); }
  }

  lemma PassiveSize(w: World, w': World, p: nat)
    requires PassiveStep(w, w', p)
    ensures |w'.peers| == |w.peers|
  {
    hide Passive;
  }

  lemma InitInv(cfg: Config)
    ensures Inv(Init(cfg))
  {
  }

  // Peer p stays as it is, or changes volatile fields only.
  lemma QuietStep(w: World, w': World, p: nat)
    requires Inv(w) && |w'.peers| == |w.peers| && p < |w.peers|
    requires var n, n' := w.peers[p].node, w'.peers[p].node;
      && Local(n', p, |w.peers|) && DurableOf(n') == DurableOf(n) && n'.grantedVotes == n.grantedVotes
      && (n'.state == n.state || n'.state == Follower)
    requires w'.peers[p].disk == w.peers[p].disk
    requires forall q :: 0 <= q < |w.peers| && q != p ==> w'.peers[q] == w.peers[q]
    requires w'.hist == w.hist || w'.hist == Note(w.hist, p, w'.peers[p].node)
    requires forall key :: key in w'.votes ==>
      (key in w.votes && w'.votes[key] == w.votes[key]) || NewCallOk(w', key, w'.votes[key])
    requires forall m :: m in w'.appends ==> m in w.appends || MsgOk(w', m)
    requires forall a :: a in w'.acks ==> a in w.acks || AckOk(w', a)
    ensures Onward(w, w')
  {
    hide InvElection, InvVouched;
    assert InvBound(w) by { BoundOf(w); }
    NoteIdle(w, p);
    assert Note(w.hist, p, w'.peers[p].node) == Note(w.hist, p, w.peers[p].node) by {
      assert Holdings(p, w'.peers[p].node) == Holdings(p, w.peers[p].node);
    }
    SameLogPassive(w, p, w'.peers[p].node);
    assert w'.peers[p].disk == DurableOf(w'.peers[p].node) by { DiskIsMemory(w, p); }
    hide Inv, Passive, NewCallOk, MsgOk, AckOk, Note, Local, Onward;
    PassiveOnward(w, w', p);
  }

  lemma BoundOf(w: World)
    requires Inv(w)
    ensures InvBound(w)
  {
  }

  lemma DiskIsMemory(w: World, p: nat)
    requires Inv(w) && p < |w.peers|
    ensures w.peers[p].disk == DurableOf(w.peers[p].node)
  {
  }

  lemma LocalOf(w: World, p: nat)
    requires Inv(w) && p < |w.peers|
    ensures Local(w.peers[p].node, p, |w.peers|)
  {
  }

  // A larger term, whatever becomes of the vote.
  lemma BumpPassive(w: World, p: nat, n': Node)
    requires Inv(w) && p < |w.peers|
    requires var n := w.peers[p].node;
      && n'.me == p && n'.logs == n.logs && n.currentTerm < n'.currentTerm && n'.votedFor >= -1 && n'.state == Follower
      && |n'.nextIndex| == |n'.matchIndex| == |w.peers| && forall q :: 0 <= q < |w.peers| ==> n'.nextIndex[q] >= 1
    ensures Passive(w, p, n')
  {
    hide InvLocal, InvElection, InvLogs, InvHeld, InvVouched, Shape;
    LocalOf(w, p);
    SameLogPassive(w, p, n');
  }

  // One peer changes passively; the rest of the world stays.
  lemma PeerStep(w: World, w': World, p: nat)
    requires Inv(w) && |w'.peers| == |w.peers| && p < |w.peers|
    requires Passive(w, p, w'.peers[p].node)
    requires w'.peers[p].disk == DurableOf(w'.peers[p].node)
    requires forall q :: 0 <= q < |w.peers| && q != p ==> w'.peers[q] == w.peers[q]
    requires w'.hist == Note(w.hist, p, w'.peers[p].node)
    requires forall key :: key in w'.votes ==> key in w.votes && w'.votes[key] == w.votes[key]
    requires w'.appends == w.appends && w'.acks == w.acks
    ensures Onward(w, w')
  {
    hide Inv, Passive, NewCallOk, MsgOk, AckOk, Note, Onward;
    PassiveOnward(w, w', p);
  }

  lemma ActTimeout(w: World, p: nat)
    requires Inv(w) && Enabled(w, Timeout(p))
    ensures Onward(w, StepTimeout(w, p))
  {
    hide Inv, Shape, Passive;
    var n, w' := w.peers[p].node, StepTimeout(w, p);
    var fol := n.(state := Follower, currentTerm := n.currentTerm + 1, votedFor := p);
    var w1 := w.(peers := w.peers[p := w.peers[p].(node := fol, disk := DurableOf(fol))], hist := Note(w.hist, p, fol));
    LocalOf(w, p);
    BumpPassive(w, p, fol);
    PeerStep(w, w1, p);
    NoElectionAhead(w, p, n.currentTerm + 1);
    assert Holdings(p, w'.peers[p].node) == Holdings(p, fol);
    hide Holdings, Local, Later;
    StandKeeps(w1, w', p);
  }

  lemma NoElectionAhead(w: World, p: nat, term: int)
    requires Inv(w) && p < |w.peers| && w.peers[p].node.currentTerm < term
    ensures Election(p, term) !in w.hist.ballots
  {
  }

  lemma CallOf(w: World, key: VoteKey)
    requires Inv(w) && key in w.votes
    ensures CallOk(w, key, w.votes[key])
    ensures GoodLog(w.hist.leaders, w.hist.ballots[Election(key.cand, key.term)].log, key.term - 1)
    ensures key.cand < |w.peers|
  {
  }

  // The vote handler leaves the peer passive, and a granted vote is a vouched one.
  lemma RequestVotePassive(w: World, key: VoteKey)
    requires Inv(w) && key in w.votes && key.peer < |w.peers|
    ensures |w.peers[key.peer].node.logs| > 0
    ensures Passive(w, key.peer, RequestVote(w.peers[key.peer].node, w.votes[key].args).node)
  {
    hide InvLocal, InvElection, InvLogs, InvHeld, InvVouched, GoodLog, Passive, TermsUpTo;
    var p, n, args := key.peer, w.peers[key.peer].node, w.votes[key].args;
    LocalOf(w, p);
    CallOf(w, key);
    if args.term > n.currentTerm {
      hide Inv;
      BumpPassive(w, p, RequestVote(n, args).node);
    } else {
      OwnVote(w, p);
      SameLogPassive(w, p, RequestVote(n, args).node);
    }
  }

  // Candidates and leaders have voted for themselves.
  lemma OwnVote(w: World, p: nat)
    requires Inv(w) && p < |w.peers|
    ensures w.peers[p].node.state != Follower ==> w.peers[p].node.votedFor == p
  {
  }

  lemma GrantVouches(w: World, key: VoteKey)
    requires Inv(w) && Enabled(w, AskVote(key))
    requires RequestVote(w.peers[key.peer].node, w.votes[key].args).reply.voteGranted && key.term !in w.hist.leaders
    requires Election(key.cand, key.term) in w.hist.ballots
    ensures Vouches(w.hist.leaders, w.hist.held, key.peer, key.term, w.hist.ballots[Election(key.cand, key.term)].log)
  {
    hide InvLocal, InvElection, InvLogs, InvHeld, InvVouched, Vouches, TermsUpTo, Grown;
    CallOf(w, key);
    UpToDateVouches(w, key.peer, key.term, w.hist.ballots[Election(key.cand, key.term)].log);
  }

  lemma GrantOk(w: World, key: VoteKey)
    requires Inv(w) && Enabled(w, AskVote(key)) && CallOk(w, key, w.votes[key])
    ensures var w' := StepAskVote(w, key); NewCallOk(w', key, w'.votes[key])
  {
    hide Inv, Vouches, IsLogUpToDate;
    var w', o := StepAskVote(w, key), RequestVote(w.peers[key.peer].node, w.votes[key].args);
    if o.reply.voteGranted && key.term !in w.hist.leaders {
      GrantVouches(w, key);
      var log := w.hist.ballots[Election(key.cand, key.term)].log;
      NewHoldingsIgnored(w.hist.leaders, w.hist.held, w'.hist.held, key.peer, key.term, log);
    }
  }

  // Holdings of the voting term itself are nothing to vouch for.
  lemma NewHoldingsIgnored(ls: Leaders, held: set<Holding>, held': set<Holding>, v: nat, term: int, log: seq<LogEntry>)
    requires Vouches(ls, held, v, term, log)
    requires forall x :: x in held' && x !in held ==> x.term >= term
    ensures Vouches(ls, held', v, term, log)
  {
    hide Kept;
  }

  lemma ActAskVote(w: World, key: VoteKey)
    requires Inv(w) && Enabled(w, AskVote(key))
    ensures Onward(w, StepAskVote(w, key))
  {
    hide Inv, Passive, GoodLog, MsgOk, AckOk, Onward;
    var p, w' := key.peer, StepAskVote(w, key);
    RequestVotePassive(w, key);
    CallOf(w, key);
    DiskIsMemory(w, p);
    assert NewCallOk(w', key, w'.votes[key]) by {
      GrantOk(w, key);
    }
    hide NewCallOk, Vouches, CallOk, Holdings;
    PassiveOnward(w, w', p);
  }

  // Nothing but calls removed.
  lemma DropStep(w: World, key: VoteKey)
    requires Inv(w) && key in w.votes
    ensures Onward(w, w.(votes := w.votes - {key}))
  {
    hide Inv, Onward, NewCallOk, MsgOk, AckOk, Note, Local;
    CallOf(w, key);
    LocalOf(w, key.cand);
    QuietStep(w, w.(votes := w.votes - {key}), key.cand);
  }

  lemma ActTellVote(cfg: Config, w: World, key: VoteKey)
    requires Inv(w) && Enabled(w, TellVote(key)) && cfg.n == |w.peers|
    ensures Onward(w, StepTellVote(cfg, w, key))
  {
    hide Inv, Onward, NewCallOk, MsgOk, AckOk, GoodLog;
    var c, n, call, w' := key.cand, w.peers[key.cand].node, w.votes[key], StepTellVote(cfg, w, key);
    CallOf(w, key);
    LocalOf(w, c);
    DiskIsMemory(w, c);
    var granted := call.reply.voteGranted;
    if call.args.term != n.currentTerm || n.state != Candidate || (!granted && call.reply.term <= n.currentTerm) {
      QuietStep(w, w', c);
    } else if !call.reply.voteGranted {
      hide Shape;
      BumpPassive(w, c, StepDown(n, call.reply.term));
      hide Passive, Note, CallOk;
      PeerStep(w, w', c);
    } else {
      TellGranted(cfg, w, key);
    }
  }

  // The world after the vote is counted, before it is decided whether that is a majority.
  ghost function Counted(w: World, key: VoteKey): World
    requires key.cand < |w.peers| && Election(key.cand, key.term) in w.hist.ballots
  {
    var c, n, e := key.cand, w.peers[key.cand].node, Election(key.cand, key.term);
    var b := w.hist.ballots[e];
    w.(peers := w.peers[c := w.peers[c].(node := n.(grantedVotes := n.grantedVotes + 1))], votes := w.votes - {key},
       hist := w.hist.(ballots := w.hist.ballots[e := b.(counted := b.counted + {key.peer})]))
  }

  ghost predicate Granted(w: World, key: VoteKey) {
    && Enabled(w, TellVote(key)) && Election(key.cand, key.term) in w.hist.ballots
    && w.votes[key].args.term == key.term && w.votes[key].reply.voteGranted
    && var n := w.peers[key.cand].node;
    n.state == Candidate && n.currentTerm == key.term && Note(w.hist, key.cand, n) == w.hist
  }

  lemma TellCounts(cfg: Config, w: World, key: VoteKey)
    requires Granted(w, key)
    ensures CountStep(w, Counted(w, key), key)
    ensures var w1, w' := Counted(w, key), StepTellVote(cfg, w, key);
      var n := w1.peers[key.cand].node;
      if n.grantedVotes <= |n.matchIndex| / 2 then w' == w1
      else
        && w' == w1.(peers := w1.peers[key.cand := w1.peers[key.cand].(node := OnWin(n, cfg.reset))],
                     hist := w1.hist.(leaders := w1.hist.leaders[key.term :=
                       Leadership(key.cand, w1.hist.ballots[Election(key.cand, key.term)].counted, n.logs)]))
  {
    var c, n := key.cand, w.peers[key.cand].node;
    var o := VoteReply(n, w.votes[key].args, w.votes[key].reply, cfg.reset);
    assert Note(w.hist, c, o.node) == w.hist by {
      assert Holdings(c, o.node) == Holdings(c, n);
    }
    hide Note, Holdings;
  }

  lemma TellGranted(cfg: Config, w: World, key: VoteKey)
    requires Enabled(w, TellVote(key)) && cfg.n == |w.peers|
    requires var n := w.peers[key.cand].node;
      n.state == Candidate && n.currentTerm == w.votes[key].args.term && w.votes[key].reply.voteGranted
    requires Inv(w)
    ensures Onward(w, StepTellVote(cfg, w, key))
  {
    hide Inv, GoodLog, Later, Shape, TermsUpTo, Note, StepTellVote;
    var c := key.cand;
    CallOf(w, key);
    var w1 := Counted(w, key);
    Records(w);
    NoteIdle(w, c);
    hide InvBound, InvHeld;
    TellCounts(cfg, w, key);
    CountKeeps(w, w1, key);
    LaterRefl(w.hist.leaders);
    var n := w1.peers[c].node;
    LocalOf(w1, c);
    if n.grantedVotes > |n.matchIndex| / 2 {
      TallyOf(w1, c);
      BallotTerm(w, key);
      WinLocal(n, c, |w.peers|, cfg.reset);
      hide Local, CallOk;
      CrownKeeps(w1, StepTellVote(cfg, w, key), c);
    }
  }

  lemma WinLocal(n: Node, p: nat, size: nat, reset: bool)
    requires Local(n, p, size)
    ensures Local(OnWin(n, reset), p, size)
  {
  }

  lemma Records(w: World)
    requires Inv(w)
    ensures InvBound(w) && InvHeld(w)
  {
  }

  lemma TallyOf(w: World, p: nat)
    requires Inv(w) && p < |w.peers| && w.peers[p].node.state == Candidate
    ensures Election(p, w.peers[p].node.currentTerm) in w.hist.ballots
    ensures w.peers[p].node.grantedVotes == |w.hist.ballots[Election(p, w.peers[p].node.currentTerm)].counted|
  {
  }

  lemma BallotTerm(w: World, key: VoteKey)
    requires Inv(w) && key in w.votes
    ensures key.term >= 1
  {
    CallOf(w, key);
  }

  lemma ActSend(w: World, p: nat, to: nat)
    requires Inv(w) && Enabled(w, SendAppend(p, to))
    ensures Onward(w, StepSend(w, p, to))
  {
    hide Inv, Onward, NewCallOk, AckOk, Note, TermsUpTo;
    var n := w.peers[p].node;
    var w' := StepSend(w, p, to);
    LocalOf(w, p);
    LeaderOf(w, p);
    assert forall m :: m in w'.appends ==> m in w.appends || MsgOk(w', m);
    hide MsgOk, Shape;
    QuietStep(w, w', p);
  }

  lemma LeaderOf(w: World, p: nat)
    requires Inv(w) && p < |w.peers| && w.peers[p].node.state == Leader
    ensures var n := w.peers[p].node;
      && n.currentTerm in w.hist.leaders && n.currentTerm >= 1
      && w.hist.leaders[n.currentTerm].id == p && w.hist.leaders[n.currentTerm].log == n.logs
  {
  }

  lemma MsgOf(w: World, m: AppendMsg)
    requires Inv(w) && m in w.appends
    ensures MsgOk(w, m) && m.args.term >= 1
  {
  }

  lemma AckOf(w: World, a: AppendAck)
    requires Inv(w) && a in w.acks
    ensures AckOk(w, a) && a.msg.args.term >= 1
  {
  }

  // The peer after the term check of AppendEntries.
  function Seen(n: Node, term: int): Node {
    if term > n.currentTerm then StepDown(n, term) else n.(state := Follower)
  }

  lemma SeenPassive(w: World, p: nat, term: int)
    requires Inv(w) && p < |w.peers| && w.peers[p].node.currentTerm <= term
    ensures Passive(w, p, Seen(w.peers[p].node, term))
  {
    hide InvLocal, InvElection, InvLogs, InvHeld, InvVouched, Shape, Passive;
    LocalOf(w, p);
    if term > w.peers[p].node.currentTerm {
      BumpPassive(w, p, Seen(w.peers[p].node, term));
    } else {
      SameLogPassive(w, p, Seen(w.peers[p].node, term));
    }
  }

  lemma AppendEntriesNode(n: Node, a: AppendEntriesArgs)
    requires Contiguous(n.logs)
    ensures AppendEntries(n, a).node ==
      if a.term < n.currentTerm then n
      else if Matched(Seen(n, a.term), a) then Accept(Seen(n, a.term), a)
      else Seen(n, a.term)
  {
    hide Accept;
  }

  lemma AppendEntriesPassive(w: World, m: AppendMsg)
    requires Inv(w) && PeerOk(w, m.to) && m in w.appends
    ensures Passive(w, m.to, AppendEntries(w.peers[m.to].node, m.args).node)
  {
    hide InvLocal, InvElection, InvLogs, InvHeld, InvVouched, Passive, Piece, Local, AppendEntries, Matched, Accept;
    var p, n, a := m.to, w.peers[m.to].node, m.args;
    AppendEntriesNode(n, a);
    LocalOf(w, p);
    MsgOf(w, m);
    if a.term < n.currentTerm {
      SameLogPassive(w, p, n);
    } else {
      SeenPassive(w, p, a.term);
      if Matched(Seen(n, a.term), a) {
        AcceptedPassive(w, p, a);
      }
    }
  }

  lemma AcceptedPassive(w: World, p: nat, a: AppendEntriesArgs)
    requires Inv(w) && p < |w.peers| && Piece(w.hist.leaders, a) && w.peers[p].node.currentTerm <= a.term
    requires Matched(Seen(w.peers[p].node, a.term), a)
    ensures Passive(w, p, Accept(Seen(w.peers[p].node, a.term), a))
  {
    hide InvLocal, InvElection, InvLogs, InvHeld, InvVouched, Passive, Piece, Matched, Accept;
    SeenPassive(w, p, a.term);
    AcceptPassive(w, p, a, Seen(w.peers[p].node, a.term));
  }

  // A rejection in the leader's own term points at index 1 or later.
  lemma RejectionOk(w: World, m: AppendMsg)
    requires PeerOk(w, m.to) && m in w.appends
    requires Inv(w)
    ensures var r := AppendEntries(w.peers[m.to].node, m.args).reply;
      !r.success && r.term == m.args.term ==> r.conflictIndex >= 1 && (r.conflictTerm == -1 || r.conflictTerm >= 1)
  {
    hide Inv, TermsUpTo, Shape, Piece, AppendEntries;
    MsgOf(w, m);
    LocalOf(w, m.to);
    PieceNat(w.hist.leaders, m.args);
    PrevTerm(w, m.args);
    RejectsAbove(w.peers[m.to].node, m.args);
  }

  lemma RejectsAbove(n: Node, a: AppendEntriesArgs)
    requires Contiguous(n.logs) && Shape(n.logs) && a.prevLogIndex >= 0
    requires if a.prevLogIndex == 0 then a.prevLogTerm == 0 else a.prevLogTerm >= 1
    ensures var r := AppendEntries(n, a).reply;
      !r.success && r.term == a.term ==> r.conflictIndex >= 1 && (r.conflictTerm == -1 || r.conflictTerm >= 1)
  {
    hide Accept, FirstNew;
    DummyMatches(n);
    hide Shape;
  }

  lemma PrevTerm(w: World, a: AppendEntriesArgs)
    requires Inv(w) && Piece(w.hist.leaders, a)
    ensures if a.prevLogIndex == 0 then a.prevLogTerm == 0 else a.prevLogTerm >= 1
  {
    assert Shape(w.hist.leaders[a.term].log) by { LeaderShape(w, a.term); }
    hide Inv;
  }

  lemma DummyMatches(n: Node)
    requires Shape(n.logs)
    ensures n.logs[0] == Dummy && n.logs[|n.logs| - 1].index == |n.logs| - 1
  {
  }

  lemma LeaderShape(w: World, t: int)
    requires Inv(w) && t in w.hist.leaders
    ensures Shape(w.hist.leaders[t].log)
  {
  }

  lemma ActRecvAppend(cfg: Config, w: World, m: AppendMsg)
    requires Inv(w) && Enabled(w, RecvAppend(m))
    ensures Onward(w, Act(cfg, w, RecvAppend(m)))
  {
    hide Inv, Onward, Passive, NewCallOk, Shape, Piece, TermsUpTo;
    var p, w' := m.to, Act(cfg, w, RecvAppend(m));
    AppendEntriesPassive(w, m);
    RejectionOk(w, m);
    MsgOf(w, m);
    DiskIsMemory(w, p);
    var o := AppendEntries(w.peers[p].node, m.args);
    assert LastOr(o.writes, w.peers[p].disk) == DurableOf(o.node) by {
      hide Merge, IsLogMatched;
    }
    assert AckOk(w', AppendAck(m, o.reply));
    hide AckOk, MsgOk, AppendEntries, Note;
    PassiveOnward(w, w', p);
  }

  lemma BackUpPositive(n: Node, index: int, term: int, otherwise: int)
    requires Shape(n.logs) && index <= LastLog(n).index && term != 0 && otherwise >= 1
    ensures BackUp(n, index, term, otherwise) >= 1
    decreases index
  {
    if index >= 0 && n.logs[index].term != term {
      BackUpPositive(n, index - 1, term, otherwise);
    }
  }

  ghost predicate AckReady(w: World, ack: AppendAck) {
    && PeerOk(w, ack.msg.args.leaderId) && ack.msg.to < |w.peers| && ack in w.acks
    && var n := w.peers[ack.msg.args.leaderId].node;
    && (ack.msg.args.term == n.currentTerm && n.state == Leader ==> ack.msg.args.prevLogIndex - 1 <= LastLog(n).index)
  }

  // Either the leader steps down to a larger term, or only volatile fields change.
  lemma AppendReplyNode(w: World, ack: AppendAck)
    requires Inv(w) && AckReady(w, ack)
    ensures var n := w.peers[ack.msg.args.leaderId].node;
      var o := AppendReply(n, ack.msg.to, ack.msg.args, ack.reply);
      || (ack.reply.term > n.currentTerm && o.node == StepDown(n, ack.reply.term) && o.writes == [DurableOf(o.node)])
      || (Local(o.node, n.me, |w.peers|) && DurableOf(o.node) == DurableOf(n) && o.node.state == n.state
          && o.node.grantedVotes == n.grantedVotes && o.writes == [])
  {
    hide Inv, TermsUpTo, Piece, MajorityIndex;
    var n, a, r := w.peers[ack.msg.args.leaderId].node, ack.msg.args, ack.reply;
    LocalOf(w, ack.msg.args.leaderId);
    AckOf(w, ack);
    if a.term == n.currentTerm && n.state == Leader && !r.success && r.term == n.currentTerm && r.conflictTerm != -1 {
      BackUpPositive(n, a.prevLogIndex - 1, r.conflictTerm, r.conflictIndex);
    }
    assert 0 <= a.prevLogIndex by { PieceNat(w.hist.leaders, a); }
  }

  lemma ActRecvAck(w: World, ack: AppendAck)
    requires Inv(w) && AckReady(w, ack)
    ensures var p := ack.msg.args.leaderId;
      var o := AppendReply(w.peers[p].node, ack.msg.to, ack.msg.args, ack.reply);
      Onward(w, Put(w, p, o.node, o.writes))
  {
    hide Inv, Onward, AppendReply, NewCallOk, MsgOk, AckOk, Passive, TermsUpTo, Shape, Note;
    var p := ack.msg.args.leaderId;
    var n := w.peers[p].node;
    var o := AppendReply(n, ack.msg.to, ack.msg.args, ack.reply);
    AppendReplyNode(w, ack);
    if o.node.currentTerm > n.currentTerm {
      LocalOf(w, p);
      BumpPassive(w, p, o.node);
      PeerStep(w, Put(w, p, o.node, o.writes), p);
    } else {
      QuietStep(w, Put(w, p, o.node, o.writes), p);
    }
  }

  lemma StartLocal(n: Node, p: nat, size: nat, command: Command)
    requires Local(n, p, size) && p < size && n.currentTerm >= 1
    ensures Local(Start(n, command).node, p, size)
    ensures n.state == Leader ==>
      && Start(n, command).node.logs == n.logs + [LogEntry(command, n.currentTerm, |n.logs|)]
      && Start(n, command).node.matchIndex[p] == |n.logs|
  {
  }

  // The leader appends; StepSubmit and, cut short, StepTorn.
  lemma SubmitGrows(w: World, p: nat, command: Command)
    requires Inv(w) && PeerOk(w, p) && Enabled(w, Submit(p, command)) && w.peers[p].node.state == Leader
    ensures var n := w.peers[p].node;
      GrowStep(w, StepSubmit(w, p, command), p, LogEntry(command, n.currentTerm, |n.logs|)) && n.currentTerm >= 1
  {
    hide Inv, Shape, TermsUpTo;
    var n, w' := w.peers[p].node, StepSubmit(w, p, command);
    LocalOf(w, p);
    LeaderOf(w, p);
    StartLocal(n, p, |w.peers|, command);
    hide Local;
    VoteOnRecord(w, p, Start(n, command).node);
  }

  // A leader's or candidate's vote for itself is on record already.
  lemma VoteOnRecord(w: World, p: nat, n': Node)
    requires Inv(w) && p < |w.peers|
    requires n'.votedFor == w.peers[p].node.votedFor && n'.currentTerm == w.peers[p].node.currentTerm
    ensures Note(w.hist, p, n').bound == w.hist.bound
  {
    assert InvBound(w) by { BoundOf(w); }
    hide Inv, Holdings;
  }

  lemma ActSubmit(w: World, p: nat, command: Command)
    requires Inv(w) && PeerOk(w, p) && Enabled(w, Submit(p, command))
    ensures Onward(w, StepSubmit(w, p, command))
  {
    hide Inv, NewCallOk, MsgOk, AckOk, Later;
    var n := w.peers[p].node;
    if n.state == Leader {
      SubmitGrows(w, p, command);
      hide Local, StepSubmit;
      GrowKeeps(w, StepSubmit(w, p, command), p, LogEntry(command, n.currentTerm, |n.logs|));
    } else {
      LocalOf(w, p);
      hide Local, Onward, Note;
      QuietStep(w, StepSubmit(w, p, command), p);
    }
  }

  lemma CrashPassive(w: World, p: nat)
    requires Inv(w) && p < |w.peers|
    ensures w.peers[p].disk == DurableOf(w.peers[p].node) && |w.peers[p].disk.logs| > 0
    ensures Passive(w, p, Restart(w.peers[p].disk, p, |w.peers|))
  {
    hide InvLocal, InvElection, InvLogs, InvHeld, InvVouched, Passive;
    DiskIsMemory(w, p);
    LocalOf(w, p);
    SameLogPassive(w, p, Restart(w.peers[p].disk, p, |w.peers|));
  }

  lemma ActCrash(w: World, p: nat)
    requires Inv(w) && p < |w.peers| && |w.peers[p].disk.logs| > 0
    ensures Onward(w, Reboot(w, p))
  {
    hide Inv, Passive, Onward;
    CrashPassive(w, p);
    var n' := Restart(w.peers[p].disk, p, |w.peers|);
    assert Note(w.hist, p, n') == w.hist by {
      assert InvBound(w) && InvHeld(w) by { Records(w); }
      NoteIdle(w, p);
      assert Holdings(p, n') == Holdings(p, w.peers[p].node);
    }
    hide Note;
    PeerStep(w, Reboot(w, p), p);
  }

  // ------------------------------------------------------------ torn actions

  // A write in the middle of a region: a larger term over the same log.
  ghost predicate TermWrite(n: Node, d: Durable) {
    d.logs == n.logs && d.currentTerm > n.currentTerm && d.votedFor >= -1
  }

  // Every write of a handler is a term write or the handler's final state.
  lemma HandlerWrites(n: Node, p: nat, size: nat, k: nat)
    requires Local(n, p, size) && p < size
    ensures k < |ElectionTimeout(n).writes| ==> TermWrite(n, ElectionTimeout(n).writes[k])
    ensures forall a: RequestVoteArgs :: k < |RequestVote(n, a).writes| ==>
      var o := RequestVote(n, a); TermWrite(n, o.writes[k]) || o.writes[k] == DurableOf(o.node)
    ensures forall a: RequestVoteArgs, r: RequestVoteReply :: k < |VoteReply(n, a, r, false).writes| ==>
      TermWrite(n, VoteReply(n, a, r, false).writes[k])
  {
    hide Shape, TermsUpTo, IsLogUpToDate;
  }

  lemma AppendWrites(n: Node, p: nat, size: nat, a: AppendEntriesArgs, k: nat)
    requires Local(n, p, size) && Contiguous(n.logs) && k < |AppendEntries(n, a).writes|
    ensures var o := AppendEntries(n, a); TermWrite(n, o.writes[k]) || o.writes[k] == DurableOf(o.node)
  {
    hide Shape, TermsUpTo, Merge, FirstNew;
  }

  lemma TermWritePassive(w: World, p: nat, d: Durable)
    requires Inv(w) && p < |w.peers| && TermWrite(w.peers[p].node, d)
    ensures |d.logs| > 0 && Passive(w, p, Restart(d, p, |w.peers|))
  {
    hide Inv, Passive, TermsUpTo;
    LocalOf(w, p);
    BumpPassive(w, p, Restart(d, p, |w.peers|));
  }

  // The durable state after any write of any step other than the leader's append.
  lemma TornPassive(w: World, a: Action, k: nat)
    requires Inv(w) && Enabled(w, Torn(a, k)) && !a.Submit?
    ensures Actor(a) < |w.peers| && Passive(w, Actor(a), Restart(Writes(w, a)[k - 1], Actor(a), |w.peers|))
  {
    hide Inv, Passive, Local, RequestVote, AppendEntries, AppendReply, VoteReply, ElectionTimeout, Restart;
    var p, d := Actor(a), Writes(w, a)[k - 1];
    var n := w.peers[p].node;
    LocalOf(w, p);
    HandlerWrites(n, p, |w.peers|, k - 1);
    if TermWrite(n, d) {
      TermWritePassive(w, p, d);
    } else {
      match a {
        case AskVote(key) =>
          RequestVotePassive(w, key);
          RestartPassive(w, p, RequestVote(n, w.votes[key].args).node);
        case RecvAppend(m) =>
          AppendEntriesPassive(w, m);
          AppendWrites(n, p, |w.peers|, m.args, k - 1);
          RestartPassive(w, p, AppendEntries(n, m.args).node);
        case RecvAck(ack) =>
          AppendReplyNode(w, ack);
          assert false;
      }
    }
  }

  lemma ActTorn(w: World, a: Action, k: nat)
    requires Inv(w) && Enabled(w, Torn(a, k)) && !a.Submit?
    ensures Onward(w, StepTorn(w, a, k))
  {
    hide Inv, Passive, Writes, Ready, Note, Onward;
    TornPassive(w, a, k);
    PeerStep(w, StepTorn(w, a, k), Actor(a));
  }

  lemma ActTornSubmit(w: World, p: nat, command: Command, k: nat)
    requires Inv(w) && PeerOk(w, p) && Enabled(w, Torn(Submit(p, command), k)) && Enabled(w, Submit(p, command))
    ensures Onward(w, StepTorn(w, Submit(p, command), k))
  {
    hide Inv, Local, Later;
    var w1 := StepSubmit(w, p, command);
    ActSubmit(w, p, command);
    LeaderOf(w, p);
    ActCrash(w1, p);
    LaterTrans(w.hist.leaders, w1.hist.leaders, Reboot(w1, p).hist.leaders);
    assert StepTorn(w, Submit(p, command), k) == Reboot(w1, p) by {
      hide Onward;
      var n' := Start(w.peers[p].node, command).node;
      assert Holdings(p, n') == Holdings(p, Restart(DurableOf(n'), p, |w.peers|));
    }
  }

  // ---------------------------------------------------------------- all of them

  lemma ActApplier(cfg: Config, w: World, a: Action)
    requires Inv(w) && Enabled(w, a) && (a.Take? || a.Deliver? || a.Finish?)
    ensures Onward(w, Act(cfg, w, a))
  {
    hide Inv, Onward, NewCallOk, MsgOk, AckOk, Note, Shape, TermsUpTo;
    LocalOf(w, a.p);
    QuietStep(w, Act(cfg, w, a), a.p);
  }

  lemma ActKeepsInv(cfg: Config, w: World, a: Action)
    requires Inv(w) && Enabled(w, a) && cfg.n == |w.peers|
    ensures Onward(w, Act(cfg, w, a))
  {
    hide Inv, Onward, StepTimeout, StepAskVote, StepTellVote, StepSubmit, StepTorn, AppendReply, AppendEntries;
    match a {
      case Timeout(p) => ActTimeout(w, p);
      case AskVote(key) => ActAskVote(w, key);
      case TellVote(key) => ActTellVote(cfg, w, key);
      case DropVote(key) => DropStep(w, key);
      case SendAppend(p, to) => ActSend(w, p, to);
      case RecvAppend(msg) => ActRecvAppend(cfg, w, msg);
      case RecvAck(ack) => ActRecvAck(w, ack);
      case Submit(p, command) => ActSubmit(w, p, command);
      case Crash(p) => ActCrash(w, p);
      case Torn(inside, k) =>
        if inside.Submit? { ActTornSubmit(w, inside.p, inside.command, k); } else { ActTorn(w, inside, k); }
      case _ => ActApplier(cfg, w, a);
    }
  }

  lemma {:induction false} RunInv(cfg: Config, ws: seq<World>, acts: seq<Action>, a: nat, b: nat)
    requires IsRun(cfg, ws, acts) && a <= b < |ws|
    ensures Inv(ws[a]) && Inv(ws[b]) && |ws[a].peers| == |ws[b].peers| == cfg.n
    ensures Later(ws[a].hist.leaders, ws[b].hist.leaders) && ws[a].hist.held <= ws[b].hist.held
    decreases b
  {
    hide Inv, Later, Enabled, Act;
    if b == 0 {
      InitInv(cfg);
      LaterRefl(ws[0].hist.leaders);
    } else {
      RunInv(cfg, ws, acts, if a < b then a else b - 1, b - 1);
      ActKeepsInv(cfg, ws[b - 1], acts[b - 1]);
      if a < b {
        LaterTrans(ws[a].hist.leaders, ws[b - 1].hist.leaders, ws[b].hist.leaders);
      } else {
        LaterRefl(ws[b].hist.leaders);
      }
    }
  }
}
