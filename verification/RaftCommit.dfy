/**
  State Machine Safety (section 5.4.3 of the extended Raft paper), for runs in which every
  winner of an election starts with no matchIndex beyond its own log, and for all runs of
  at most two servers.  The source starts a leader that way after a restart, and would
  always do so if it reset matchIndex on a win as its field comment promises.  `RaftStale`
  shows that with three servers or more it is not so.
 */
module RaftCommit {
  import opened RaftNode
  import opened RaftProtocol
  import opened RaftInvariant
  import opened RaftSteps
  import opened RaftActions
  import opened RaftBelief
  import opened RaftSafety
  import opened Quorum

  // Index c of the log lies at or below an entry that a majority held, of a term up to
  // `bound`, and the log is that term's leader's log through c.
  ghost predicate Anchored(w: World, log: seq<LogEntry>, c: int, bound: int) {
    && 0 <= c < |log|
    && (c == 0 || exists t, i :: AnchoredAt(w, log, c, bound, t, i))
  }

  ghost predicate AnchoredAt(w: World, log: seq<LogEntry>, c: int, bound: int, t: int, i: int) {
    t <= bound && c <= i && Quorate(w, t, i) && Agree(log, w.hist.leaders[t].log, c + 1)
  }

  ghost predicate ApplierOk(n: Node, a: Applier) {
    && 0 <= n.lastApplied <= n.commitIndex < |n.logs|
    && (a.busy ==> n.lastApplied <= a.upto <= n.commitIndex && a.delivered + a.batch == n.logs[1..a.upto + 1])
    && (!a.busy ==> a.batch == [] && a.delivered == n.logs[1..n.lastApplied + 1])
  }

  ghost predicate SafePeer(w: World, p: nat) {
    && p < |w.peers|
    && var n := w.peers[p].node;
    && Anchored(w, n.logs, n.commitIndex, n.currentTerm)
    && ApplierOk(n, w.peers[p].applier)
  }

  // The message commits no further than it reaches.
  ghost predicate SafeMsg(w: World, a: AppendEntriesArgs) {
    && a.term in w.hist.leaders
    && a.leaderCommit <= a.prevLogIndex + |a.entries|
    && Anchored(w, w.hist.leaders[a.term].log, a.leaderCommit, a.term)
  }

  ghost predicate Safe(w: World) {
    && (forall p: nat :: p < |w.peers| ==> SafePeer(w, p))
    && (forall m :: m in w.appends ==> SafeMsg(w, m.args))
  }

  // ------------------------------------------------------- nothing is forgotten

  lemma QuorateLater(w: World, w': World, t: int, i: int)
    requires Quorate(w, t, i) && |w'.peers| == |w.peers|
    requires Later(w.hist.leaders, w'.hist.leaders) && w.hist.held <= w'.hist.held
    ensures Quorate(w', t, i)
  {
    assert LongerLog(w.hist.leaders[t], w'.hist.leaders[t], t);
    var a, b := Holders(w.hist.held, |w.peers|, t, i), Holders(w'.hist.held, |w'.peers|, t, i);
    assert a <= b;
    SubsetSize(a, b);
  }

  lemma AnchoredLater(w: World, w': World, log: seq<LogEntry>, log': seq<LogEntry>, c: int, bound: int, bound': int)
    requires Anchored(w, log, c, bound) && bound <= bound' && |w'.peers| == |w.peers| && Agree(log, log', c + 1)
    requires Later(w.hist.leaders, w'.hist.leaders) && w.hist.held <= w'.hist.held
    ensures Anchored(w', log', c, bound')
  {
    if c != 0 {
      var t, i :| AnchoredAt(w, log, c, bound, t, i);
      QuorateLater(w, w', t, i);
      assert LongerLog(w.hist.leaders[t], w'.hist.leaders[t], t);
      assert AnchoredAt(w', log', c, bound', t, i);
    }
  }

  // Whoever did not move is as safe as before.
  lemma SafeFrame(w: World, w': World, p: nat)
    requires Safe(w) && |w'.peers| == |w.peers|
    requires Later(w.hist.leaders, w'.hist.leaders) && w.hist.held <= w'.hist.held
    requires forall q :: 0 <= q < |w.peers| && q != p ==> w'.peers[q] == w.peers[q]
    requires p < |w.peers| ==> SafePeer(w', p)
    requires forall m :: m in w'.appends ==> m in w.appends || SafeMsg(w', m.args)
    ensures Safe(w')
  {
    hide Anchored, ApplierOk;
    forall q: nat | q < |w'.peers| ensures SafePeer(w', q) {
      if q != p { OtherPeer(w, w', q); }
    }
    forall m | m in w'.appends ensures SafeMsg(w', m.args) {
      if m in w.appends { OldMsg(w, w', m.args); }
    }
  }

  lemma OtherPeer(w: World, w': World, q: nat)
    requires SafePeer(w, q) && |w'.peers| == |w.peers| && w'.peers[q] == w.peers[q]
    requires Later(w.hist.leaders, w'.hist.leaders) && w.hist.held <= w'.hist.held
    ensures SafePeer(w', q)
  {
    hide Later, ApplierOk;
    var n := w.peers[q].node;
    assert 0 <= n.commitIndex < |n.logs|;
    hide Anchored;
    AnchoredLater(w, w', n.logs, n.logs, n.commitIndex, n.currentTerm, n.currentTerm);
  }

  lemma OldMsg(w: World, w': World, a: AppendEntriesArgs)
    requires SafeMsg(w, a) && |w'.peers| == |w.peers|
    requires Later(w.hist.leaders, w'.hist.leaders) && w.hist.held <= w'.hist.held
    ensures SafeMsg(w', a)
  {
    var log, log' := w.hist.leaders[a.term].log, w'.hist.leaders[a.term].log;
    assert LongerLog(w.hist.leaders[a.term], w'.hist.leaders[a.term], a.term);
    AnchoredLater(w, w', log, log', a.leaderCommit, a.term, a.term);
  }

  // ----------------------------------------------------------------- followers

  // Two anchors agree: the later term's leader had the earlier one's entry.
  lemma AnchorInLeader(w: World, log: seq<LogEntry>, c: int, bound: int, term: int)
    requires InvLeaders(w) && InvLogs(w) && InvVouched(w)
    requires Anchored(w, log, c, bound) && bound <= term && term in w.hist.leaders
    requires Shape(log)
    ensures Agree(log, w.hist.leaders[term].log, c + 1)
  {
    hide InvLeaders, InvVouched, Holders;
    var ls := w.hist.leaders;
    assert GoodLog(ls, ls[term].log, term);
    assert ls[term].log[0] == log[0];
    if c != 0 {
      var t, i :| AnchoredAt(w, log, c, bound, t, i);
      assert GoodLog(ls, ls[t].log, t);
      hide InvLogs, Shape, Grown, TermsUpTo, Majority;
      if t < term {
        Complete(w, t, i, term);
        SameTermSamePrefix(ls, ls[t].log, ls[term].log, i);
      }
    }
  }

  // Accepting a message neither removes nor skips a committed entry.
  lemma AcceptSafe(w: World, p: nat, a: AppendEntriesArgs)
    requires Inv(w) && SafePeer(w, p) && SafeMsg(w, a) && Piece(w.hist.leaders, a)
    requires w.peers[p].node.currentTerm <= a.term && Matched(Seen(w.peers[p].node, a.term), a)
    ensures var n, n' := w.peers[p].node, Accept(Seen(w.peers[p].node, a.term), a);
      && n.commitIndex <= n'.commitIndex && n'.lastApplied == n.lastApplied && n'.currentTerm == a.term
      && Agree(n'.logs, n.logs, n.commitIndex + 1)
      && Agree(n'.logs, w.hist.leaders[a.term].log, a.prevLogIndex + |a.entries| + 1)
      && Anchored(w, n'.logs, n'.commitIndex, a.term)
  {
    hide InvLocal, InvElection, InvHeld, InvLogs, InvVouched, InvLeaders, Matched, Piece, Grown, TermsUpTo, Agree,
         Anchored, Merge, Accept, ApplierOk;
    var ls, n := w.hist.leaders, w.peers[p].node;
    LogsAreGood(w, p, a.term);
    LeaderLayers(w);
    CommitInLog(w, p);
    AnchorInLeader(w, n.logs, n.commitIndex, n.currentTerm, a.term);
    hide Inv;
    MatchedAt(n, a);
    MergeAdopts(ls, n.logs, a, n.commitIndex + 1);
    MergeGood(ls, n.logs, a);
    hide Shape;
    CommitAfter(w, p, a);
  }

  lemma CommitInLog(w: World, p: nat)
    requires SafePeer(w, p)
    ensures 0 <= w.peers[p].node.commitIndex < |w.peers[p].node.logs|
  {
  }

  lemma AcceptIs(n: Node, a: AppendEntriesArgs)
    requires Shape(n.logs) && n.currentTerm <= a.term && 0 <= a.prevLogIndex < |n.logs|
    requires Shape(Merge(n.logs, a.prevLogIndex + 1, a.entries))
    ensures var log' := Merge(n.logs, a.prevLogIndex + 1, a.entries);
      var n', c := Accept(Seen(n, a.term), a), Min(a.leaderCommit, |log'| - 1);
      && n'.logs == log' && n'.lastApplied == n.lastApplied && n'.currentTerm == a.term
      && n'.commitIndex == Max(n.commitIndex, c)
  {
    hide Merge;
    LastIndex(n.logs);
    LastIndex(Merge(n.logs, a.prevLogIndex + 1, a.entries));
  }

  lemma CommitAfter(w: World, p: nat, a: AppendEntriesArgs)
    requires SafePeer(w, p) && SafeMsg(w, a) && w.peers[p].node.currentTerm <= a.term
    requires Shape(w.peers[p].node.logs) && Matched(Seen(w.peers[p].node, a.term), a)
    requires 0 <= a.prevLogIndex < |w.peers[p].node.logs|
    requires Shape(Merge(w.peers[p].node.logs, a.prevLogIndex + 1, a.entries))
    requires var n, log' := w.peers[p].node, Merge(w.peers[p].node.logs, a.prevLogIndex + 1, a.entries);
      && Agree(log', n.logs, n.commitIndex + 1)
      && Agree(log', w.hist.leaders[a.term].log, a.prevLogIndex + |a.entries| + 1)
    ensures var n, n' := w.peers[p].node, Accept(Seen(w.peers[p].node, a.term), a);
      && n'.logs == Merge(n.logs, a.prevLogIndex + 1, a.entries)
      && n.commitIndex <= n'.commitIndex && n'.lastApplied == n.lastApplied && n'.currentTerm == a.term
      && Anchored(w, n'.logs, n'.commitIndex, a.term)
  {
    hide Merge, Accept, Matched;
    var n := w.peers[p].node;
    var log' := Merge(n.logs, a.prevLogIndex + 1, a.entries);
    var c := Min(a.leaderCommit, |log'| - 1);
    AcceptIs(n, a);
    hide Shape, Seen;
    LaterRefl(w.hist.leaders);
    if c > n.commitIndex {
      AnchorBelow(w, w.hist.leaders[a.term].log, a.leaderCommit, a.term, c);
      AnchoredLater(w, w, w.hist.leaders[a.term].log, log', c, a.term, a.term);
    } else {
      AnchoredLater(w, w, n.logs, log', n.commitIndex, n.currentTerm, a.term);
    }
  }

  lemma AnchorBelow(w: World, log: seq<LogEntry>, c: int, bound: int, c': int)
    requires Anchored(w, log, c, bound) && 0 <= c' <= c
    ensures Anchored(w, log, c', bound)
  {
    if c' != 0 {
      var t, i :| AnchoredAt(w, log, c, bound, t, i);
      assert AnchoredAt(w, log, c', bound, t, i);
    }
  }

  // ------------------------------------------------------------- one step at a time

  // Log, commit index and applier stay; a leader stays one only with what it knew.
  lemma KeepsPeer(w: World, w': World, p: nat)
    requires SafePeer(w, p) && |w'.peers| == |w.peers|
    requires Later(w.hist.leaders, w'.hist.leaders) && w.hist.held <= w'.hist.held
    requires w'.peers[p].applier == w.peers[p].applier
    requires var n, n' := w.peers[p].node, w'.peers[p].node;
      && n'.logs == n.logs && n'.commitIndex == n.commitIndex && n'.lastApplied == n.lastApplied
      && n.currentTerm <= n'.currentTerm
    ensures SafePeer(w', p)
  {
    var n, n' := w.peers[p].node, w'.peers[p].node;
    CommitInLog(w, p);
    hide Anchored, Later;
    AnchoredLater(w, w', n.logs, n.logs, n.commitIndex, n.currentTerm, n'.currentTerm);
  }

  // A peer that has just started has committed and applied nothing.
  lemma BootSafe(w: World, p: nat, d: Durable)
    requires p < |w.peers| && Shape(d.logs) && w.peers[p] == Boot(d, p, |w.peers|)
    ensures SafePeer(w, p)
  {
  }

  lemma SafePeerOf(w: World, p: nat)
    requires Safe(w) && p < |w.peers|
    ensures SafePeer(w, p)
  {
  }

  // The steps that leave the actor's log, commit index and knowledge alone.
  lemma QuietSafe(w: World, w': World, p: nat)
    requires Safe(w) && Onward(w, w') && p < |w.peers|
    requires forall q :: 0 <= q < |w.peers| && q != p ==> w'.peers[q] == w.peers[q]
    requires w'.peers[p].applier == w.peers[p].applier
    requires var n, n' := w.peers[p].node, w'.peers[p].node;
      && n'.logs == n.logs && n'.commitIndex == n.commitIndex && n'.lastApplied == n.lastApplied
      && n.currentTerm <= n'.currentTerm
    requires forall m :: m in w'.appends ==> m in w.appends || SafeMsg(w', m.args)
    ensures Safe(w')
  {
    hide Inv, Later, SafePeer, SafeMsg;
    SafePeerOf(w, p);
    KeepsPeer(w, w', p);
    SafeFrame(w, w', p);
  }

  lemma RebootSafe(w: World, w': World, p: nat, d: Durable)
    requires Safe(w) && Onward(w, w') && p < |w.peers|
    requires forall q :: 0 <= q < |w.peers| && q != p ==> w'.peers[q] == w.peers[q]
    requires |d.logs| > 0 && w'.peers[p] == Boot(d, p, |w.peers|)
    requires w'.appends == w.appends && w'.acks == w.acks
    ensures Safe(w')
  {
    hide Inv, Later, SafePeer, SafeMsg, TermsUpTo, Shape;
    LocalOf(w', p);
    BootSafe(w', p, d);
    SafeFrame(w, w', p);
  }

  // A message carries everything the leader has after prev.
  lemma ReachesEnd(n: Node, prev: int)
    requires Shape(n.logs) && Contiguous(n.logs) && FirstLog(n).index <= prev <= LastLog(n).index
    ensures prev + |GenAppendEntriesArgs(n, prev).entries| == |n.logs| - 1
  {
  }

  lemma SendSafe(w: World, p: nat, to: nat)
    requires Inv(w) && Safe(w) && Enabled(w, SendAppend(p, to))
    ensures Safe(StepSend(w, p, to))
  {
    hide Inv, Shape, ApplierOk, Quorate;
    var n := w.peers[p].node;
    var w' := StepSend(w, p, to);
    ActSend(w, p, to);
    LeaderOf(w, p);
    SafePeerOf(w, p);
    LaterRefl(w.hist.leaders);
    CommitInLog(w, p);
    hide Anchored;
    AnchoredLater(w, w', n.logs, n.logs, n.commitIndex, n.currentTerm, n.currentTerm);
    LocalOf(w, p);
    ReachesEnd(n, n.nextIndex[to] - 1);
    assert SafeMsg(w', GenAppendEntriesArgs(n, n.nextIndex[to] - 1));
    hide SafeMsg, SafePeer;
    QuietSafe(w, w', p);
  }

  lemma AcceptedPeerSafe(w: World, w': World, p: nat, a: AppendEntriesArgs)
    requires Inv(w) && SafePeer(w, p) && SafeMsg(w, a) && Piece(w.hist.leaders, a) && Onward(w, w')
    requires w.peers[p].node.currentTerm <= a.term && Matched(Seen(w.peers[p].node, a.term), a)
    requires w'.peers[p].node == Accept(Seen(w.peers[p].node, a.term), a) && w'.peers[p].applier == w.peers[p].applier
    ensures SafePeer(w', p)
  {
    hide Inv, Matched, Piece, Accept, Later, Anchored;
    var n, n' := w.peers[p].node, w'.peers[p].node;
    AcceptSafe(w, p, a);
    assert 0 <= n'.commitIndex < |n'.logs| by { AnchoredBounds(w, n'.logs, n'.commitIndex, a.term); }
    AnchoredLater(w, w', n'.logs, n'.logs, n'.commitIndex, a.term, a.term);
    assert ApplierOk(n', w'.peers[p].applier) by {
      hide Onward;
      SamePrefixApplier(n, n', w.peers[p].applier);
    }
  }

  lemma AnchoredBounds(w: World, log: seq<LogEntry>, c: int, bound: int)
    requires Anchored(w, log, c, bound)
    ensures 0 <= c < |log|
  {
  }

  lemma SamePrefixApplier(n: Node, n': Node, a: Applier)
    requires ApplierOk(n, a) && Agree(n'.logs, n.logs, n.commitIndex + 1)
    requires n.commitIndex <= n'.commitIndex < |n'.logs| && n'.lastApplied == n.lastApplied
    ensures ApplierOk(n', a)
  {
    var upto := if a.busy then a.upto else n.lastApplied;
    assert n'.logs[1..upto + 1] == n.logs[1..upto + 1];
  }

  lemma RecvAppendSafe(cfg: Config, w: World, m: AppendMsg)
    requires Inv(w) && Safe(w) && Enabled(w, RecvAppend(m))
    ensures Safe(Act(cfg, w, RecvAppend(m)))
  {
    hide Inv, SafePeer, SafeMsg, Later, Matched, Accept, Shape, Piece, Rejection;
    var p, n, a, w' := m.to, w.peers[m.to].node, m.args, Act(cfg, w, RecvAppend(m));
    ActRecvAppend(cfg, w, m);
    AppendEntriesNode(n, a);
    MsgOf(w, m);
    SafePeerOf(w, p);
    assert SafeMsg(w, a);
    hide AppendEntries;
    if a.term >= n.currentTerm && Matched(Seen(n, a.term), a) {
      AcceptedPeerSafe(w, w', p, a);
      SafeFrame(w, w', p);
    } else {
      QuietSafe(w, w', p);
    }
  }

  // ------------------------------------------------------------------ the leader

  // The leader commits only what a majority held in its own term.
  lemma AdvanceSafe(w: World, p: nat, n: Node)
    requires p < |w.peers| && n.currentTerm in w.hist.leaders && w.hist.leaders[n.currentTerm].log == n.logs
    requires Shape(n.logs) && |n.matchIndex| == |w.peers| && Contiguous(n.logs)
    requires 0 <= n.commitIndex && Anchored(w, n.logs, n.commitIndex, n.currentTerm)
    requires forall q: nat :: q < |w.peers| ==> MatchOk(w.hist.held, n, q)
    ensures Anchored(w, AdvanceCommit(n).logs, AdvanceCommit(n).commitIndex, n.currentTerm)
    ensures n.commitIndex <= AdvanceCommit(n).commitIndex
  {
    var c, t := MajorityIndex(n.matchIndex), n.currentTerm;
    if c > n.commitIndex && IsLogMatched(n, c, t) {
      MajorityIndexIsGreatest(n.matchIndex, c);
      hide MajorityIndex;
      var reached, holders := Reached(n.matchIndex, c), Holders(w.hist.held, |w.peers|, t, c);
      assert n.logs[c].term == t;
      forall q: nat | q in reached ensures q in holders {
        assert MatchOk(w.hist.held, n, q);
      }
      SubsetSize(reached, holders);
      assert Quorate(w, t, c);
      assert AnchoredAt(w, n.logs, c, t, t, c);
    }
  }

  // The leader's beliefs are true, or a reply and its own log are all it needs to know.
  ghost predicate Informed(w: World, p: nat) {
    |w.peers| <= 2 || Beliefs(w, p)
  }

  lemma RecvAckSafe(w: World, ack: AppendAck)
    requires Inv(w) && TrueAcks(w) && Safe(w) && AckReady(w, ack)
    requires var p := ack.msg.args.leaderId; w.peers[p].node.state == Leader ==> Informed(w, p)
    ensures var p := ack.msg.args.leaderId;
      var o := AppendReply(w.peers[p].node, ack.msg.to, ack.msg.args, ack.reply);
      Safe(Put(w, p, o.node, o.writes))
  {
    hide Inv, TrueAcks, SafePeer, SafeMsg, Later, Shape, BackUp, AdvanceCommit, Informed;
    var p, a, r := ack.msg.args.leaderId, ack.msg.args, ack.reply;
    var n := w.peers[p].node;
    var o := AppendReply(n, ack.msg.to, a, r);
    var w' := Put(w, p, o.node, o.writes);
    ActRecvAck(w, ack);
    if a.term == n.currentTerm && n.state == Leader && r.success {
      AckedPeerSafe(w, w', ack);
      hide AppendReply;
      SafeFrame(w, w', p);
    } else {
      QuietSafe(w, w', p);
    }
  }

  lemma AckedPeerSafe(w: World, w': World, ack: AppendAck)
    requires Inv(w) && TrueAcks(w) && Safe(w) && AckReady(w, ack) && Onward(w, w') && Informed(w, ack.msg.args.leaderId)
    requires var n := w.peers[ack.msg.args.leaderId].node;
      ack.msg.args.term == n.currentTerm && n.state == Leader && ack.reply.success
    requires var p := ack.msg.args.leaderId;
      && w'.peers[p].node == AppendReply(w.peers[p].node, ack.msg.to, ack.msg.args, ack.reply).node
      && w'.peers[p].applier == w.peers[p].applier
    ensures SafePeer(w', ack.msg.args.leaderId)
  {
    hide Inv, TrueAcks, Later, AdvanceCommit, Quorate, SafeMsg, TermsUpTo, MatchOk, AppendReply, Beliefs;
    var p := ack.msg.args.leaderId;
    var n := w.peers[p].node;
    var n1 := Noted(n, ack);
    AckIsNoted(n, ack);
    SafePeerOf(w, p);
    LeaderOf(w, p);
    LocalOf(w, p);
    forall q: nat | q < |w.peers| ensures MatchOk(w.hist.held, n1, q) {
      NotedBeliefs(w, ack, q);
    }
    hide Local, Anchored;
    AdvanceSafe(w, p, n1);
    AdvanceFields(n1);
    CommitInLog(w, p);
    AnchoredBounds(w, n1.logs, AdvanceCommit(n1).commitIndex, n.currentTerm);
    AnchoredLater(w, w', n1.logs, n1.logs, AdvanceCommit(n1).commitIndex, n.currentTerm, n.currentTerm);
  }

  lemma SubmitSafe(w: World, p: nat, command: Command)
    requires Inv(w) && Safe(w) && PeerOk(w, p) && Enabled(w, Submit(p, command))
    ensures Safe(StepSubmit(w, p, command))
  {
    hide Inv, SafePeer, SafeMsg, Later;
    var n, w' := w.peers[p].node, StepSubmit(w, p, command);
    ActSubmit(w, p, command);
    if n.state == Leader {
      SafePeerOf(w, p);
      SubmittedPeerSafe(w, p, command);
      SafeFrame(w, w', p);
    } else {
      QuietSafe(w, w', p);
    }
  }

  lemma SubmittedPeerSafe(w: World, p: nat, command: Command)
    requires Inv(w) && SafePeer(w, p) && PeerOk(w, p) && Enabled(w, Submit(p, command))
    requires Onward(w, StepSubmit(w, p, command)) && w.peers[p].node.state == Leader
    ensures SafePeer(StepSubmit(w, p, command), p)
  {
    hide Inv, Later;
    var n, w' := w.peers[p].node, StepSubmit(w, p, command);
    CommitInLog(w, p);
    AnchoredLater(w, w', n.logs, w'.peers[p].node.logs, n.commitIndex, n.currentTerm, n.currentTerm);
    hide Anchored;
    SamePrefixApplier(n, w'.peers[p].node, w.peers[p].applier);
  }

  lemma TellVoteSafe(cfg: Config, w: World, key: VoteKey)
    requires Inv(w) && Safe(w) && Enabled(w, TellVote(key)) && cfg.n == |w.peers|
    ensures Safe(StepTellVote(cfg, w, key))
  {
    hide Inv, SafePeer, SafeMsg, Later, Note;
    ActTellVote(cfg, w, key);
    QuietSafe(w, StepTellVote(cfg, w, key), key.cand);
  }

  // Batches are cut, sent and closed without a gap.
  lemma ApplierSteps(n: Node, a: Applier)
    requires ApplierOk(n, a) && Contiguous(n.logs) && n.logs[0].index == 0
    ensures !a.busy ==> ApplierOk(n, Applier(true, ApplyBatch(n), n.commitIndex, a.delivered))
    ensures a.busy && a.batch != [] ==>
      ApplierOk(n, a.(batch := a.batch[1..], delivered := a.delivered + [a.batch[0]]))
    ensures a.busy && a.batch == [] ==> ApplierOk(Applied(n, a.upto), a.(busy := false))
  {
    if !a.busy {
      var a, b := n.lastApplied + 1, n.commitIndex + 1;
      assert n.logs[1..a] + n.logs[a..b] == n.logs[1..b];
    } else if a.batch != [] {
      assert a.delivered + [a.batch[0]] + a.batch[1..] == a.delivered + a.batch;
    } else {
      assert a.delivered + a.batch == a.delivered;
    }
  }

  lemma ApplierPeerSafe(w: World, w': World, p: nat)
    requires SafePeer(w, p) && |w'.peers| == |w.peers| && w'.hist == w.hist
    requires w'.peers[p].node == w.peers[p].node.(lastApplied := w'.peers[p].node.lastApplied)
    requires ApplierOk(w'.peers[p].node, w'.peers[p].applier)
    ensures SafePeer(w', p)
  {
    hide ApplierOk;
    var n, n' := w.peers[p].node, w'.peers[p].node;
    LaterRefl(w.hist.leaders);
    CommitInLog(w, p);
    hide Anchored;
    AnchoredLater(w, w', n.logs, n.logs, n.commitIndex, n.currentTerm, n.currentTerm);
  }

  lemma ApplierSafe(cfg: Config, w: World, a: Action)
    requires Inv(w) && Safe(w) && Enabled(w, a) && (a.Take? || a.Deliver? || a.Finish?)
    ensures Safe(Act(cfg, w, a))
  {
    hide Inv, SafeMsg, Later, SafePeer, ApplierOk, Shape, TermsUpTo;
    var w' := Act(cfg, w, a);
    ActApplier(cfg, w, a);
    SafePeerOf(w, a.p);
    assert ApplierOk(w.peers[a.p].node, w.peers[a.p].applier) by { ApplierOf(w, a.p); }
    assert w.peers[a.p].node.logs[0].index == 0 by { FirstIsDummy(w, a.p); }
    ApplierSteps(w.peers[a.p].node, w.peers[a.p].applier);
    ApplierPeerSafe(w, w', a.p);
    SafeFrame(w, w', a.p);
  }

  lemma ApplierOf(w: World, p: nat)
    requires SafePeer(w, p)
    ensures ApplierOk(w.peers[p].node, w.peers[p].applier)
  {
  }

  // ------------------------------------------------------------------- every run

  lemma VotingSafe(cfg: Config, w: World, a: Action)
    requires Inv(w) && Safe(w) && Enabled(w, a) && cfg.n == |w.peers| && (a.Timeout? || a.AskVote? || a.DropVote?)
    ensures Safe(Act(cfg, w, a))
  {
    hide Inv, Safe, AppendReply, AppendEntries, RequestVote, Later, Note;
    ActKeepsInv(cfg, w, a);
    var w' := Act(cfg, w, a);
    match a {
      case Timeout(p) => QuietSafe(w, w', p);
      case AskVote(key) =>
        VoteKeepsLog(w.peers[key.peer].node, w.votes[key].args);
        QuietSafe(w, w', key.peer);
      case DropVote(key) =>
        assert key.cand < |w.peers| by { CallOf(w, key); }
        QuietSafe(w, w', key.cand);
    }
  }

  lemma ActKeepsSafe(cfg: Config, w: World, a: Action)
    requires Inv(w) && TrueAcks(w) && Safe(w) && Enabled(w, a) && cfg.n == |w.peers|
    requires forall p: nat, term: int :: Leads(w, p, term) ==> Informed(w, p)
    ensures Safe(Act(cfg, w, a))
  {
    hide Inv, TrueAcks, Safe, AppendReply, AppendEntries, RequestVote, Later, Note, Informed;
    ActKeepsInv(cfg, w, a);
    var w' := Act(cfg, w, a);
    match a {
      case TellVote(key) => TellVoteSafe(cfg, w, key);
      case SendAppend(p, to) => SendSafe(w, p, to);
      case RecvAppend(msg) => RecvAppendSafe(cfg, w, msg);
      case RecvAck(ack) =>
        assert w.peers[ack.msg.args.leaderId].node.state == Leader ==>
          Leads(w, ack.msg.args.leaderId, w.peers[ack.msg.args.leaderId].node.currentTerm);
        RecvAckSafe(w, ack);
      case Submit(p, command) => SubmitSafe(w, p, command);
      case Crash(p) => RebootSafe(w, w', p, w.peers[p].disk);
      case Torn(inside, k) => RebootSafe(w, w', Actor(inside), Writes(w, inside)[k - 1]);
      case Take(_) => ApplierSafe(cfg, w, a);
      case Deliver(_) => ApplierSafe(cfg, w, a);
      case Finish(_) => ApplierSafe(cfg, w, a);
      case _ => VotingSafe(cfg, w, a);
    }
  }

  // No leader commits on the strength of a stale matchIndex.
  ghost predicate Trusted(cfg: Config, ws: seq<World>) {
    cfg.n <= 2 || FreshWins(ws)
  }

  lemma InitSafe(cfg: Config)
    ensures Safe(Init(cfg))
  {
  }

  lemma {:induction false} RunSafe(cfg: Config, ws: seq<World>, acts: seq<Action>, b: nat)
    requires IsRun(cfg, ws, acts) && Trusted(cfg, ws) && b < |ws|
    ensures Safe(ws[b])
  {
    hide Inv, TrueAcks, Safe, Enabled, Act, Later, Leads, Beliefs, FreshWins;
    if b == 0 {
      InitSafe(cfg);
    } else {
      RunSafe(cfg, ws, acts, b - 1);
      RunInv(cfg, ws, acts, b - 1, b - 1);
      RunAcks(cfg, ws, acts, b - 1);
      var w := ws[b - 1];
      forall p: nat, term: int | Leads(w, p, term) ensures Informed(w, p) {
        if cfg.n > 2 { RunBeliefs(cfg, ws, acts, b - 1, p, term); }
      }
      ActKeepsSafe(cfg, ws[b - 1], acts[b - 1]);
    }
  }

  // ----------------------------------------------------- state machine safety

  // Two anchored prefixes of the same or of different times never contradict each other.
  lemma OrderedAnchorsAgree(w: World, x: seq<LogEntry>, c: int, t: int, i: int, y: seq<LogEntry>, d: int, u: int,
                            j: int, k: nat)
    requires InvLeaders(w) && InvLogs(w) && InvVouched(w) && Shape(x)
    requires AnchoredAt(w, x, c, t, t, i) && AnchoredAt(w, y, d, u, u, j) && t <= u && 0 <= k <= c < |x| && k <= d
    ensures Agree(x, y, k + 1)
  {
    hide InvLogs, InvLeaders, InvVouched, Holders, Shape, Majority;
    AnchorInLeader(w, x, c, t, u);
  }

  lemma AnchorsAgree(w: World, x: seq<LogEntry>, c: int, y: seq<LogEntry>, d: int, bound: int, k: nat)
    requires InvLeaders(w) && InvLogs(w) && InvVouched(w)
    requires Anchored(w, x, c, bound) && Anchored(w, y, d, bound) && k <= c && k <= d
    requires Shape(x) && Shape(y)
    ensures Agree(x, y, k + 1)
  {
    assert x[0] == y[0];
    hide InvLogs, InvLeaders, InvVouched, Quorate, Shape;
    if k > 0 {
      var t, i :| AnchoredAt(w, x, c, bound, t, i);
      var u, j :| AnchoredAt(w, y, d, bound, u, j);
      if t <= u {
        OrderedAnchorsAgree(w, x, c, t, i, y, d, u, j, k);
      } else {
        OrderedAnchorsAgree(w, y, d, u, j, x, c, t, i, k);
      }
    }
  }

  lemma CommittedAgree(cfg: Config, ws: seq<World>, acts: seq<Action>, a: nat, b: nat, p: nat, q: nat, k: nat)
    requires IsRun(cfg, ws, acts) && Trusted(cfg, ws) && a <= b < |ws| && p < cfg.n && q < cfg.n
    ensures |ws[a].peers| == |ws[b].peers| == cfg.n
    ensures var x, y := ws[a].peers[p].node, ws[b].peers[q].node;
      && 0 <= x.commitIndex < |x.logs| && 0 <= y.commitIndex < |y.logs|
      && (k <= x.commitIndex && k <= y.commitIndex ==> Agree(x.logs, y.logs, k + 1))
  {
    hide IsRun, Trusted, Inv, Safe, SafePeer, Later, Anchored;
    RunInv(cfg, ws, acts, a, b);
    RunSafe(cfg, ws, acts, a);
    RunSafe(cfg, ws, acts, b);
    SafePeerOf(ws[a], p);
    SafePeerOf(ws[b], q);
    CommitInLog(ws[a], p);
    CommitInLog(ws[b], q);
    LogOnRecord(ws[a], p);
    LogOnRecord(ws[b], q);
    var x, y := ws[a].peers[p].node, ws[b].peers[q].node;
    var bound := Max(x.currentTerm, y.currentTerm);
    AnchoredOf(ws[a], p);
    AnchoredOf(ws[b], q);
    LaterRefl(ws[b].hist.leaders);
    AnchoredLater(ws[a], ws[b], x.logs, x.logs, x.commitIndex, x.currentTerm, bound);
    AnchoredLater(ws[b], ws[b], y.logs, y.logs, y.commitIndex, y.currentTerm, bound);
    LeaderLayers(ws[b]);
    assert InvLogs(ws[b]) by { LogLayer(ws[b]); }
    hide InvLogs, InvLeaders, InvVouched;
    if k <= x.commitIndex && k <= y.commitIndex {
      AnchorsAgree(ws[b], x.logs, x.commitIndex, y.logs, y.commitIndex, bound, k);
    }
  }

  lemma AnchoredOf(w: World, p: nat)
    requires SafePeer(w, p)
    ensures Anchored(w, w.peers[p].node.logs, w.peers[p].node.commitIndex, w.peers[p].node.currentTerm)
  {
  }

  lemma LogLayer(w: World)
    requires Inv(w)
    ensures InvLogs(w)
  {
  }

  // No two servers, at any two times, have committed different entries at an index, or
  // different entries before it.
  lemma StateMachineSafety(cfg: Config, ws: seq<World>, acts: seq<Action>, a: nat, b: nat, p: nat, q: nat, k: nat)
    requires IsRun(cfg, ws, acts) && Trusted(cfg, ws) && a <= b < |ws| && p < cfg.n && q < cfg.n
    ensures |ws[a].peers| == |ws[b].peers| == cfg.n
    ensures var x, y := ws[a].peers[p].node, ws[b].peers[q].node;
      && x.commitIndex < |x.logs| && y.commitIndex < |y.logs|
      && (k <= x.commitIndex && k <= y.commitIndex ==> x.logs[..k + 1] == y.logs[..k + 1])
  {
    hide IsRun, Trusted;
    CommittedAgree(cfg, ws, acts, a, b, p, q, k);
  }

  // What one server, in one incarnation, has sent to its state machine is its log from index 1
  // on, up to at most its commit index; of two servers, one has sent a prefix of what the
  // other has.
  lemma AppliedInOrder(cfg: Config, ws: seq<World>, acts: seq<Action>, a: nat, b: nat, p: nat, q: nat)
    requires IsRun(cfg, ws, acts) && Trusted(cfg, ws) && a <= b < |ws| && p < cfg.n && q < cfg.n
    ensures |ws[a].peers| == |ws[b].peers| == cfg.n
    ensures var x, y, n := ws[a].peers[p].applier.delivered, ws[b].peers[q].applier.delivered, ws[a].peers[p].node;
      && (x <= y || y <= x)
      && |x| <= n.commitIndex < |n.logs| && x == n.logs[1..|x| + 1]
      && forall i :: 0 <= i < |x| ==> x[i].index == i + 1
  {
    hide IsRun, Trusted, Inv, Safe, SafePeer, Later, Grown;
    CommittedAgree(cfg, ws, acts, a, b, p, q, 0);
    RunInv(cfg, ws, acts, a, b);
    RunSafe(cfg, ws, acts, a);
    RunSafe(cfg, ws, acts, b);
    SafePeerOf(ws[a], p);
    SafePeerOf(ws[b], q);
    LogOnRecord(ws[a], p);
    var m, n := ws[a].peers[p].node, ws[b].peers[q].node;
    var k := Min(m.commitIndex, n.commitIndex);
    CommittedAgree(cfg, ws, acts, a, b, p, q, k);
    DeliveredIsLog(ws[a], p);
    DeliveredIsLog(ws[b], q);
    var x, y := ws[a].peers[p].applier.delivered, ws[b].peers[q].applier.delivered;
    assert forall i :: 0 <= i < |x| && i < |y| ==> x[i] == y[i];
    if |x| <= |y| { assert x <= y; } else { assert y <= x; }
  }

  lemma DeliveredIsLog(w: World, p: nat)
    requires SafePeer(w, p)
    ensures var d, n := w.peers[p].applier.delivered, w.peers[p].node;
      |d| <= n.commitIndex < |n.logs| && forall i :: 0 <= i < |d| ==> d[i] == n.logs[i + 1]
  {
    hide Anchored;
    var ap, n := w.peers[p].applier, w.peers[p].node;
    var upto := if ap.busy then ap.upto else n.lastApplied;
    assert ap.delivered + ap.batch == n.logs[1..upto + 1];
    forall i | 0 <= i < |ap.delivered| ensures ap.delivered[i] == n.logs[i + 1] {
      assert ap.delivered[i] == (ap.delivered + ap.batch)[i];
    }
  }

  // Every AppendEntries message ever sent commits no further than its own last entry.
  lemma LeaderCommitCovered(cfg: Config, ws: seq<World>, acts: seq<Action>, b: nat, m: AppendMsg)
    requires IsRun(cfg, ws, acts) && Trusted(cfg, ws) && b < |ws| && m in ws[b].appends
    ensures m.args.leaderCommit <= m.args.prevLogIndex + |m.args.entries|
  {
    hide IsRun, Trusted, SafePeer, Anchored;
    RunSafe(cfg, ws, acts, b);
  }

}
