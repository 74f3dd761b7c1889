/**
  What a leader may believe of its peers.  A successful reply is true whatever has
  happened: its sender held the entries it confirms.  A leader whose matchIndex is true
  when it wins keeps it true for as long as it leads.
 */
module RaftBelief {
  import opened RaftNode
  import opened RaftProtocol
  import opened RaftInvariant
  import opened RaftActions

  // What n believes of peer q: entries of the current term up to matchIndex[q] were held by q.
  ghost predicate Believes(held: set<Holding>, n: Node, q: nat) {
    && q < |n.matchIndex|
    && forall i :: 1 <= i <= n.matchIndex[q] && i < |n.logs| && n.logs[i].term == n.currentTerm ==>
         Holding(q, n.currentTerm, i) in held
  }

  // The belief is true, and will be however the log grows.
  ghost predicate MatchOk(held: set<Holding>, n: Node, q: nat) {
    Believes(held, n, q) && (q != n.me ==> n.matchIndex[q] < |n.logs|)
  }

  ghost predicate Beliefs(w: World, p: nat) {
    p < |w.peers| && forall q: nat :: q < |w.peers| ==> MatchOk(w.hist.held, w.peers[p].node, q)
  }

  ghost predicate TrueAck(w: World, a: AppendAck) {
    && var t := a.msg.args.term;
    && t in w.hist.leaders
    && var upto := a.msg.args.prevLogIndex + |a.msg.args.entries|;
    && upto < |w.hist.leaders[t].log|
    && (a.reply.success ==>
          forall i :: 1 <= i <= upto && w.hist.leaders[t].log[i].term == t ==> Holding(a.msg.to, t, i) in w.hist.held)
  }

  ghost predicate TrueAcks(w: World) {
    forall a :: a in w.acks ==> TrueAck(w, a)
  }

  // ------------------------------------------------------------------ replies

  // Entries a leader appends later lie beyond what its earlier messages carried.
  lemma OldAck(w: World, w': World, a: AppendAck)
    requires TrueAck(w, a) && Later(w.hist.leaders, w'.hist.leaders) && w.hist.held <= w'.hist.held
    ensures TrueAck(w', a)
  {
    var t := a.msg.args.term;
    assert LongerLog(w.hist.leaders[t], w'.hist.leaders[t], t);
  }

  lemma AckOfAccepted(w: World, m: AppendMsg, r: AppendEntriesReply)
    requires m.to < |w.peers| && InvHeld(w) && m.args.term in w.hist.leaders
    requires w.peers[m.to].node.currentTerm == m.args.term
    requires var upto := m.args.prevLogIndex + |m.args.entries|;
      && upto < |w.hist.leaders[m.args.term].log|
      && Agree(w.peers[m.to].node.logs, w.hist.leaders[m.args.term].log, upto + 1)
    ensures TrueAck(w, AppendAck(m, r))
  {
    hide Kept;
    var n, lead, t := w.peers[m.to].node, w.hist.leaders[m.args.term].log, m.args.term;
    forall i | 1 <= i <= m.args.prevLogIndex + |m.args.entries| && lead[i].term == t
      ensures Holding(m.to, t, i) in w.hist.held
    {
      assert n.logs[i] == lead[i];
      assert Holding(m.to, t, i) in Holdings(m.to, n);
    }
  }

  lemma PieceFits(ls: Leaders, a: AppendEntriesArgs)
    requires Piece(ls, a)
    ensures a.prevLogIndex + |a.entries| < |ls[a.term].log|
  {
  }

  lemma MatchedAt(n: Node, a: AppendEntriesArgs)
    requires Shape(n.logs) && Matched(Seen(n, a.term), a)
    ensures 0 <= a.prevLogIndex < |n.logs| && n.logs[a.prevLogIndex].term == a.prevLogTerm
  {
  }

  lemma MatchedIsSuccess(n: Node, a: AppendEntriesArgs)
    requires Contiguous(n.logs)
    ensures AppendEntries(n, a).reply.success <==> a.term >= n.currentTerm && Matched(Seen(n, a.term), a)
  {
    hide Accept, FirstNew, ConflictScan;
  }

  lemma AcceptedFields(n: Node, a: AppendEntriesArgs)
    requires Shape(n.logs) && n.currentTerm <= a.term && Matched(Seen(n, a.term), a)
    ensures 0 <= a.prevLogIndex < |n.logs|
    ensures var n' := Accept(Seen(n, a.term), a);
      && n'.logs == Merge(n.logs, a.prevLogIndex + 1, a.entries) && n'.currentTerm == a.term && n'.state == Follower
  {
    hide Merge;
  }

  // An accepted message has made the sender's log the leader's through its last entry.
  lemma NewAck(cfg: Config, w: World, m: AppendMsg)
    requires Inv(w) && Enabled(w, RecvAppend(m))
    ensures var w' := Act(cfg, w, RecvAppend(m)); forall x :: x in w'.acks ==> x in w.acks || TrueAck(w', x)
  {
    hide Inv, Later, Matched, Accept, Shape, Piece, Grown, TermsUpTo, AppendEntries, Note;
    var p, n, a, w' := m.to, w.peers[m.to].node, m.args, Act(cfg, w, RecvAppend(m));
    ActRecvAppend(cfg, w, m);
    MsgOf(w, m);
    PieceNat(w.hist.leaders, a);
    PieceFits(w.hist.leaders, a);
    LocalOf(w, p);
    SameLeaders(cfg, w, m);
    MatchedIsSuccess(n, a);
    AppendEntriesNode(n, a);
    if a.term >= n.currentTerm && Matched(Seen(n, a.term), a) {
      AcceptedFields(n, a);
      MatchedAt(n, a);
      GoodLogs(w, p, a.term);
      MergeAdopts(w.hist.leaders, n.logs, a, 0);
      Records(w');
      hide InvHeld;
      AckOfAccepted(w', m, AppendEntries(n, a).reply);
    }
  }

  lemma GoodLogs(w: World, p: nat, t: int)
    requires Inv(w) && p < |w.peers| && t in w.hist.leaders && w.peers[p].node.currentTerm <= t
    ensures GoodLog(w.hist.leaders, w.peers[p].node.logs, t) && GoodLog(w.hist.leaders, w.hist.leaders[t].log, t)
  {
    hide GoodLog;
    LogsAreGood(w, p, t);
  }

  lemma SameLeaders(cfg: Config, w: World, m: AppendMsg)
    requires Enabled(w, RecvAppend(m))
    ensures var w', o := Act(cfg, w, RecvAppend(m)), AppendEntries(w.peers[m.to].node, m.args);
      && w'.hist.leaders == w.hist.leaders && w'.acks == w.acks + {AppendAck(m, o.reply)}
      && |w'.peers| == |w.peers| && w'.peers[m.to].node == o.node
  {
    hide AppendEntries;
  }

  lemma SameAcks(cfg: Config, w: World, a: Action)
    requires Enabled(w, a) && !a.RecvAppend?
    ensures Act(cfg, w, a).acks == w.acks
  {
    hide AppendReply, RequestVote, VoteReply, Note, ElectionTimeout, Start, Writes;
  }

  lemma ActKeepsAcks(cfg: Config, w: World, a: Action)
    requires Inv(w) && TrueAcks(w) && Enabled(w, a) && cfg.n == |w.peers|
    ensures TrueAcks(Act(cfg, w, a))
  {
    hide Inv, Later, Enabled, Act, AppendEntries, TrueAck;
    ActKeepsInv(cfg, w, a);
    var w' := Act(cfg, w, a);
    if a.RecvAppend? {
      NewAck(cfg, w, a.msg);
    } else {
      SameAcks(cfg, w, a);
    }
    forall x | x in w'.acks ensures TrueAck(w', x) {
      if x in w.acks { OldAck(w, w', x); }
    }
  }

  // ------------------------------------------------------------------ a leader in office

  lemma MatchLater(held: set<Holding>, held': set<Holding>, n: Node, n': Node, q: nat)
    requires MatchOk(held, n, q) && held <= held'
    requires n'.matchIndex == n.matchIndex && n'.logs == n.logs && n'.currentTerm == n.currentTerm && n'.me == n.me
    ensures MatchOk(held', n', q)
  {
  }

  // A leader's own log is held by the leader.
  lemma SelfMatch(w: World, p: nat, n: Node)
    requires InvHeld(w) && p < |w.peers| && p < |n.matchIndex| && n.me == p
    requires n.logs == w.peers[p].node.logs && n.currentTerm == w.peers[p].node.currentTerm
    ensures MatchOk(w.hist.held, n, p)
  {
    hide Kept;
    forall i | 1 <= i <= n.matchIndex[p] && i < |n.logs| && n.logs[i].term == n.currentTerm
      ensures Holding(p, n.currentTerm, i) in w.hist.held
    {
      assert Holding(p, n.currentTerm, i) in Holdings(p, w.peers[p].node);
    }
  }

  // The leader after it has noted a successful reply, before it looks for a new commit index.
  function Noted(n: Node, ack: AppendAck): Node
    requires ack.msg.to < |n.matchIndex| == |n.nextIndex|
  {
    var upto := ack.msg.args.prevLogIndex + |ack.msg.args.entries|;
    n.(matchIndex := n.matchIndex[ack.msg.to := upto], nextIndex := n.nextIndex[ack.msg.to := upto + 1])
  }

  // In a cluster of two a reply and the leader's own log are all there is to know.
  lemma NotedBeliefs(w: World, ack: AppendAck, q: nat)
    requires Inv(w) && TrueAcks(w) && AckReady(w, ack) && q < |w.peers|
    requires var n := w.peers[ack.msg.args.leaderId].node;
      ack.msg.args.term == n.currentTerm && n.state == Leader && ack.reply.success
    requires |w.peers| <= 2 || Beliefs(w, ack.msg.args.leaderId)
    ensures MatchOk(w.hist.held, Noted(w.peers[ack.msg.args.leaderId].node, ack), q)
  {
    hide Inv, TermsUpTo, Shape, Piece;
    var p := ack.msg.args.leaderId;
    var n := w.peers[p].node;
    LeaderOf(w, p);
    AckOf(w, ack);
    if q == p {
      Records(w);
      hide InvHeld;
      SelfMatch(w, p, Noted(n, ack));
    } else if q == ack.msg.to {
      assert TrueAck(w, ack);
    } else {
      assert MatchOk(w.hist.held, n, q);
    }
  }

  lemma AckIsNoted(n: Node, ack: AppendAck)
    requires Contiguous(n.logs) && ack.msg.to < |n.nextIndex| == |n.matchIndex| && FirstLog(n).index <= n.commitIndex
    requires ack.msg.args.term == n.currentTerm && n.state == Leader ==>
      ack.msg.args.prevLogIndex - 1 <= LastLog(n).index
    ensures var n' := AppendReply(n, ack.msg.to, ack.msg.args, ack.reply).node;
      if ack.msg.args.term == n.currentTerm && n.state == Leader && ack.reply.success
      then n' == AdvanceCommit(Noted(n, ack))
      else n'.matchIndex == n.matchIndex && n'.logs == n.logs && n'.me == n.me
  {
    hide AdvanceCommit, BackUp;
  }

  lemma AdvanceFields(n: Node)
    requires Contiguous(n.logs) && |n.matchIndex| > 0 && FirstLog(n).index <= n.commitIndex
    ensures AdvanceCommit(n) == n.(commitIndex := AdvanceCommit(n).commitIndex)
  {
  }

  // A step is its actor's alone.
  lemma Elsewhere(cfg: Config, w: World, a: Action, p: nat)
    requires Enabled(w, a) && Actor(a) != p && p < |w.peers|
    ensures p < |Act(cfg, w, a).peers| && Act(cfg, w, a).peers[p] == w.peers[p]
  {
    hide AppendEntries, AppendReply, RequestVote, VoteReply, ElectionTimeout, Start, Note, Writes;
  }


  // What a step does to a leader that stays in office.
  lemma InOffice(cfg: Config, w: World, a: Action, p: nat, term: int)
    requires Inv(w) && Enabled(w, a) && Leads(w, p, term) && Leads(Act(cfg, w, a), p, term)
    requires !(a.Submit? && a.p == p) && !(a.RecvAck? && a.ack.msg.args.leaderId == p)
    ensures var n, n' := w.peers[p].node, Act(cfg, w, a).peers[p].node;
      n'.matchIndex == n.matchIndex && n'.logs == n.logs && n'.me == n.me
  {
    hide Inv, AppendReply, AppendEntries, RequestVote, Note;
    if Actor(a) != p {
      if p < |w.peers| { Elsewhere(cfg, w, a, p); }
      return;
    }
    match a {
      case AskVote(key) => VoteKeepsLog(w.peers[key.peer].node, w.votes[key].args);
      case RecvAppend(m) =>
        AppendEntriesNode(w.peers[m.to].node, m.args);
        if Matched(Seen(w.peers[m.to].node, m.args.term), m.args) { AcceptFollows(w.peers[m.to].node, m.args); }
      case Torn(inside, k) =>
        hide Writes;
      case _ =>
    }
  }

  lemma AcceptFollows(n: Node, a: AppendEntriesArgs)
    requires Matched(Seen(n, a.term), a)
    ensures Accept(Seen(n, a.term), a).state == Follower
  {
    hide Merge;
  }

  lemma VoteKeepsLog(n: Node, a: RequestVoteArgs)
    requires |n.logs| > 0
    ensures var n' := RequestVote(n, a).node;
      && n' == n.(currentTerm := n'.currentTerm, votedFor := n'.votedFor, state := n'.state)
      && n.currentTerm <= n'.currentTerm
      && (n'.state == Leader ==> n.state == Leader && n'.currentTerm == n.currentTerm)
  {
  }

  lemma SubmitBeliefs(w: World, p: nat, command: Command, q: nat)
    requires Inv(w) && Beliefs(w, p) && Enabled(w, Submit(p, command)) && w.peers[p].node.state == Leader
    requires q < |w.peers|
    requires Onward(w, StepSubmit(w, p, command))
    ensures MatchOk(StepSubmit(w, p, command).hist.held, StepSubmit(w, p, command).peers[p].node, q)
  {
    hide Inv, Later;
    var w' := StepSubmit(w, p, command);
    if q == p {
      Records(w');
      hide InvHeld;
      SelfMatch(w', p, w'.peers[p].node);
    } else {
      assert MatchOk(w.hist.held, w.peers[p].node, q);
    }
  }

  lemma AckBeliefs(cfg: Config, w: World, ack: AppendAck, q: nat)
    requires Inv(w) && TrueAcks(w) && Enabled(w, RecvAck(ack)) && Beliefs(w, ack.msg.args.leaderId) && q < |w.peers|
    requires var p := ack.msg.args.leaderId;
      var w' := Act(cfg, w, RecvAck(ack));
      && Onward(w, w') && w.peers[p].node.state == Leader && p < |w'.peers|
      && w'.peers[p].node.currentTerm == w.peers[p].node.currentTerm
    ensures var w' := Act(cfg, w, RecvAck(ack)); MatchOk(w'.hist.held, w'.peers[ack.msg.args.leaderId].node, q)
  {
    hide Inv, Later, TrueAcks, MatchOk, AppendReply, AdvanceCommit, Note;
    var p, w' := ack.msg.args.leaderId, Act(cfg, w, RecvAck(ack));
    var n := w.peers[p].node;
    AckIsNoted(n, ack);
    if ack.msg.args.term == n.currentTerm && ack.reply.success {
      NotedBeliefs(w, ack, q);
      AdvanceFields(Noted(n, ack));
      MatchLater(w.hist.held, w'.hist.held, Noted(n, ack), w'.peers[p].node, q);
    } else {
      MatchLater(w.hist.held, w'.hist.held, n, w'.peers[p].node, q);
    }
  }

  // A leader whose beliefs are true keeps them true for as long as it leads.
  lemma BeliefsStay(cfg: Config, w: World, a: Action, p: nat, term: int)
    requires Inv(w) && TrueAcks(w) && Enabled(w, a) && cfg.n == |w.peers|
    requires Leads(w, p, term) && Leads(Act(cfg, w, a), p, term) && Beliefs(w, p)
    ensures Beliefs(Act(cfg, w, a), p)
  {
    hide Inv, TrueAcks, MatchOk, Later, Act, StepSubmit;
    ActKeepsInv(cfg, w, a);
    var w' := Act(cfg, w, a);
    forall q: nat | q < |w'.peers| ensures MatchOk(w'.hist.held, w'.peers[p].node, q) {
      if a.Submit? && a.p == p {
        SubmitIs(cfg, w, p, a.command);
        SubmitBeliefs(w, p, a.command, q);
      } else if a.RecvAck? && a.ack.msg.args.leaderId == p {
        AckBeliefs(cfg, w, a.ack, q);
      } else {
        InOffice(cfg, w, a, p, term);
        MatchLater(w.hist.held, w'.hist.held, w.peers[p].node, w'.peers[p].node, q);
      }
    }
  }

  lemma SubmitIs(cfg: Config, w: World, p: nat, command: Command)
    requires Enabled(w, Submit(p, command))
    ensures Act(cfg, w, Submit(p, command)) == StepSubmit(w, p, command)
  {
  }

  // ------------------------------------------------------------------ a win

  // Leaders are made by counting votes and in no other way.
  lemma OnlyVotesCrown(cfg: Config, w: World, a: Action, p: nat, term: int)
    requires Inv(w) && Enabled(w, a) && !a.TellVote? && !Leads(w, p, term)
    ensures !Leads(Act(cfg, w, a), p, term)
  {
    hide Inv, AppendReply, AppendEntries, RequestVote, Note;
    if Actor(a) != p {
      if p < |w.peers| { Elsewhere(cfg, w, a, p); }
      return;
    }
    match a {
      case AskVote(key) => VoteKeepsLog(w.peers[key.peer].node, w.votes[key].args);
      case RecvAppend(m) =>
        AppendEntriesNode(w.peers[m.to].node, m.args);
        if Matched(Seen(w.peers[m.to].node, m.args.term), m.args) { AcceptFollows(w.peers[m.to].node, m.args); }
      case RecvAck(ack) => AppendReplyNode(w, ack);
      case Torn(inside, k) =>
        hide Writes;
      case _ =>
    }
  }

  // A candidate's log holds only entries of earlier terms.
  lemma CandidateTerms(w: World, p: nat)
    requires Inv(w) && p < |w.peers| && w.peers[p].node.state == Candidate
    ensures TermsUpTo(w.peers[p].node.logs, w.peers[p].node.currentTerm - 1)
  {
  }

  lemma LastIndex(log: seq<LogEntry>)
    requires Shape(log)
    ensures log[|log| - 1].index == |log| - 1
  {
  }

  lemma FirstIsDummy(w: World, p: nat)
    requires Inv(w) && p < |w.peers|
    ensures |w.peers[p].node.logs| > 0 && w.peers[p].node.logs[0].index == 0
  {
    LocalOf(w, p);
  }

  // The winner's log is the one it stood with; none of its entries is of the new term.
  lemma WonByVote(cfg: Config, w: World, key: VoteKey, p: nat, term: int)
    requires Inv(w) && Enabled(w, TellVote(key))
    requires !Leads(w, p, term) && Leads(StepTellVote(cfg, w, key), p, term)
    ensures p < |w.peers|
    ensures var n, n' := w.peers[p].node, StepTellVote(cfg, w, key).peers[p].node;
      n'.logs == n.logs && n'.commitIndex == n.commitIndex && n.logs[0].index <= n.commitIndex
    ensures TermsUpTo(w.peers[p].node.logs, term - 1)
  {
    hide Inv, TermsUpTo, Note;
    if w.peers[p].node.state == Candidate { CandidateTerms(w, p); }
  }

  lemma JustWon(cfg: Config, w: World, a: Action, p: nat, term: int)
    requires Inv(w) && Enabled(w, a) && !Leads(w, p, term) && Leads(Act(cfg, w, a), p, term)
    ensures TermsUpTo(Act(cfg, w, a).peers[p].node.logs, term - 1)
  {
    hide Inv, TermsUpTo;
    if !a.TellVote? {
      OnlyVotesCrown(cfg, w, a, p, term);
      assert false;
    }
    WonByVote(cfg, w, a.key, p, term);
  }

  // A winner with nothing beyond its log starts with true beliefs.
  lemma WinnerBeliefs(w: World, p: nat)
    requires p < |w.peers| && Local(w.peers[p].node, p, |w.peers|) && NoneBeyond(w.peers[p].node, p)
    requires TermsUpTo(w.peers[p].node.logs, w.peers[p].node.currentTerm - 1)
    ensures Beliefs(w, p)
  {
    var n := w.peers[p].node;
    LastIndex(n.logs);
    hide Shape;
    forall q: nat | q < |w.peers| ensures MatchOk(w.hist.held, n, q) {
      assert q != p ==> n.matchIndex[q] <= LastLog(n).index;
    }
  }

  // ------------------------------------------------------------------ every run

  lemma InitAcks(cfg: Config)
    ensures TrueAcks(Init(cfg)) && forall p: nat, term: int :: !Leads(Init(cfg), p, term)
  {
  }

  lemma {:induction false} RunAcks(cfg: Config, ws: seq<World>, acts: seq<Action>, b: nat)
    requires IsRun(cfg, ws, acts) && b < |ws|
    ensures TrueAcks(ws[b])
  {
    hide Inv, TrueAcks, Enabled, Act, Later;
    if b == 0 {
      InitAcks(cfg);
    } else {
      RunAcks(cfg, ws, acts, b - 1);
      RunInv(cfg, ws, acts, b - 1, b - 1);
      ActKeepsAcks(cfg, ws[b - 1], acts[b - 1]);
    }
  }

  lemma BeliefsAfter(cfg: Config, w: World, a: Action, p: nat, term: int)
    requires Inv(w) && TrueAcks(w) && Enabled(w, a) && cfg.n == |w.peers| && FreshWin(w, Act(cfg, w, a))
    requires Leads(w, p, term) ==> Beliefs(w, p)
    requires Leads(Act(cfg, w, a), p, term)
    ensures Beliefs(Act(cfg, w, a), p)
  {
    hide Inv, TrueAcks, Beliefs, Later, Act, Enabled, TermsUpTo, Shape;
    if Leads(w, p, term) {
      BeliefsStay(cfg, w, a, p, term);
    } else {
      ActKeepsInv(cfg, w, a);
      JustWon(cfg, w, a, p, term);
      LocalOf(Act(cfg, w, a), p);
      WinnerBeliefs(Act(cfg, w, a), p);
    }
  }

  // If every winner is fresh, every leader's beliefs are true at all times.
  lemma {:induction false} RunBeliefs(cfg: Config, ws: seq<World>, acts: seq<Action>, b: nat, p: nat, term: int)
    requires IsRun(cfg, ws, acts) && FreshWins(ws) && b < |ws| && Leads(ws[b], p, term)
    ensures Beliefs(ws[b], p)
  {
    hide Inv, TrueAcks, Enabled, Act, Later, FreshWin, Leads, Beliefs;
    if b == 0 {
      InitAcks(cfg);
      assert false;
    } else {
      if Leads(ws[b - 1], p, term) { RunBeliefs(cfg, ws, acts, b - 1, p, term); }
      RunInv(cfg, ws, acts, b - 1, b - 1);
      RunAcks(cfg, ws, acts, b - 1);
      assert FreshWin(ws[b - 1], ws[b - 1 + 1]);
      BeliefsAfter(cfg, ws[b - 1], acts[b - 1], p, term);
    }
  }

  // With the reset that the field comment promises, every win is fresh.
  lemma ResetIsFresh(cfg: Config, ws: seq<World>, acts: seq<Action>)
    requires IsRun(cfg, ws, acts) && cfg.reset
    ensures FreshWins(ws)
  {
    forall k | 0 <= k < |ws| - 1 ensures FreshWin(ws[k], ws[k + 1]) {
      RunInv(cfg, ws, acts, k, k);
      assert Enabled(ws[k], acts[k]) && ws[k + 1] == Act(cfg, ws[k], acts[k]);
      ResetStepFresh(cfg, ws[k], acts[k]);
    }
  }

  lemma ResetStepFresh(cfg: Config, w: World, a: Action)
    requires Inv(w) && Enabled(w, a) && cfg.reset
    ensures FreshWin(w, Act(cfg, w, a))
  {
    hide Inv;
    if a.TellVote? {
      FirstIsDummy(w, a.key.cand);
      assert LastLog(w.peers[a.key.cand].node).index >= 0;
    } else {
      forall p: nat, term: int | !Leads(w, p, term) ensures !Leads(Act(cfg, w, a), p, term) {
        OnlyVotesCrown(cfg, w, a, p, term);
      }
      hide Act, Enabled;
    }
  }
}
