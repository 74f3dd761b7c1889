/**
  Why State Machine Safety needs a hypothesis, and for which clusters it does not.  The
  source does not reset matchIndex when a server wins an election.  In every cluster of
  three servers or more there is a run, without crashes or lost messages and in which no
  leader times out, that ends with two servers having committed different entries:

  - in term 1 server 0 takes two commands; in term 2 server 2 takes one;
  - in term 3 server 0 sends its two entries to everyone but server 2, and notes it;
  - in term 4 server 2 overwrites server 0's log with its own;
  - in term 5 server 0, whose matchIndex for the others is stale, takes a command and
    commits it on server 2's answer to a heartbeat, although nobody else holds it;
  - in term 6 server 2 takes another command and commits it with everyone but server 0.
 */
module RaftStale {
  import opened RaftNode
  import opened RaftProtocol
  import opened Quorum

  // ------------------------------------------------------------------ calm runs

  // No crash, no lost call, no timeout of a leader, no message delivered twice.
  ghost predicate CalmStep(w: World, a: Action) {
    && !a.Crash? && !a.Torn? && !a.DropVote?
    && (a.Timeout? && a.p < |w.peers| ==> w.peers[a.p].node.state != Leader)
    && (a.RecvAppend? ==> forall x :: x in w.acks ==> x.msg != a.msg)
  }

  ghost predicate CalmRun(n: nat, ws: seq<World>, acts: seq<Action>) {
    IsRun(Config(n, false), ws, acts) && forall k :: 0 <= k < |acts| ==> CalmStep(ws[k], acts[k])
  }

  ghost predicate Reachable(n: nat, w: World) {
    exists ws, acts :: CalmRun(n, ws, acts) && ws[|ws| - 1] == w
  }

  lemma Go(n: nat, w: World, a: Action)
    requires Reachable(n, w) && Enabled(w, a) && CalmStep(w, a)
    ensures Reachable(n, Act(Config(n, false), w, a))
  {
    hide Enabled, Act, CalmStep;
    var cfg := Config(n, false);
    var ws, acts :| CalmRun(n, ws, acts) && ws[|ws| - 1] == w;
    var ws', acts' := ws + [Act(cfg, w, a)], acts + [a];
    forall k | 0 <= k < |acts'|
      ensures Enabled(ws'[k], acts'[k]) && ws'[k + 1] == Act(cfg, ws'[k], acts'[k]) && CalmStep(ws'[k], acts'[k])
    {
      if k < |acts| { assert ws'[k] == ws[k] && ws'[k + 1] == ws[k + 1] && acts'[k] == acts[k]; }
    }
    assert CalmRun(n, ws', acts');
    assert ws'[|ws'| - 1] == Act(cfg, w, a);
  }

  ghost predicate Fine(peer: Peer, p: nat, n: nat) {
    && Contiguous(peer.node.logs) && peer.node.logs[0] == Dummy && |peer.disk.logs| > 0 && peer.node.me == p
    && |peer.node.nextIndex| == |peer.node.matchIndex| == n && 0 <= peer.node.commitIndex
  }

  ghost predicate Up(n: nat, w: World) {
    Reachable(n, w) && |w.peers| == n && forall p: nat :: p < n ==> Fine(w.peers[p], p, n)
  }

  // Server p's memory is now x; everyone else is as before.
  ghost predicate Only(w: World, w': World, p: nat, x: Node) {
    && p < |w.peers| == |w'.peers| && w'.peers[p].node == x
    && forall q: nat :: q < |w.peers| && q != p ==> w'.peers[q] == w.peers[q]
  }

  // Replies so far are of earlier terms, or of this one and from servers below `below`.
  ghost predicate Heard(w: World, term: int, below: nat) {
    forall x :: x in w.acks ==> x.msg.args.term < term || (x.msg.args.term == term && x.msg.to < below)
  }

  // ------------------------------------------------------------------ an election

  // Nothing but term, vote and role has changed.
  ghost predicate Keeps(x: Node, y: Node) {
    y == x.(currentTerm := y.currentTerm, votedFor := y.votedFor, state := y.state, grantedVotes := y.grantedVotes)
  }

  function Stood(x: Node): Node {
    x.(state := Candidate, currentTerm := x.currentTerm + 1, votedFor := x.me, grantedVotes := 1)
  }

  lemma Stand(n: nat, w: World, c: nat) returns (w': World)
    requires Up(n, w) && c < n && w.peers[c].node.state != Leader
    ensures Up(n, w') && Only(w, w', c, Stood(w.peers[c].node)) && w'.acks == w.acks
    ensures w'.votes == w.votes + Calls(n, GenRequestVoteArgs(Stood(w.peers[c].node)))
  {
    hide Reachable, Note;
    Go(n, w, Timeout(c));
    w' := Act(Config(n, false), w, Timeout(c));
  }

  // A server of an earlier term comes to the candidate's term, with or without voting for it.
  lemma Ask(n: nat, w: World, key: VoteKey, args: RequestVoteArgs) returns (w': World)
    requires Up(n, w) && key.peer < n && key in w.votes && w.votes[key] == Asked(args)
    requires args.term == key.term && w.peers[key.peer].node.currentTerm < args.term
    ensures Up(n, w') && key.peer < |w'.peers| && Only(w, w', key.peer, w'.peers[key.peer].node) && w'.acks == w.acks
    ensures var x, y := w.peers[key.peer].node, w'.peers[key.peer].node;
      && Keeps(x, y) && y.currentTerm == key.term && y.state == Follower
      && var vote := IsLogUpToDate(x, args.lastLogIndex, args.lastLogTerm);
      && w'.votes == w.votes[key := Answered(args, RequestVoteReply(key.term, vote))]
  {
    hide Reachable, Note;
    Go(n, w, AskVote(key));
    w' := Act(Config(n, false), w, AskVote(key));
  }

  // The candidate counts a vote, and leads once it has a majority.
  lemma Tally(n: nat, w: World, key: VoteKey, args: RequestVoteArgs) returns (w': World)
    requires Up(n, w) && key.cand < n && key in w.votes && args.term == key.term
    requires w.votes[key] == Answered(args, RequestVoteReply(key.term, true))
    requires w.peers[key.cand].node.currentTerm == key.term && w.peers[key.cand].node.state != Follower
    ensures Up(n, w') && w'.votes == w.votes - {key} && w'.acks == w.acks
    ensures var x := w.peers[key.cand].node;
      Only(w, w', key.cand,
           if x.state == Leader then x
           else x.(grantedVotes := x.grantedVotes + 1,
                   state := if x.grantedVotes + 1 > n / 2 then Leader else Candidate))
  {
    hide Reachable, Note;
    Go(n, w, TellVote(key));
    w' := Act(Config(n, false), w, TellVote(key));
  }

  // How many servers below k, other than c and o.
  function Polled(c: nat, o: nat, k: nat): int {
    k - (if c < k then 1 else 0) - (if o < k then 1 else 0)
  }

  // Everyone below k has been asked.
  ghost predicate Polling(n: nat, w0: World, w: World, c: nat, o: nat, args: RequestVoteArgs, k: nat) {
    && Up(n, w0) && Up(n, w) && w.acks == w0.acks && c < n && o < n && k <= n
    && (forall p: nat :: p < n && p != c ==>
          if p < k then
            && Keeps(w0.peers[p].node, w.peers[p].node)
            && w.peers[p].node.currentTerm == args.term && w.peers[p].node.state == Follower
          else w.peers[p] == w0.peers[p])
    && (forall p: nat :: k <= p < n && p != c ==>
          VoteKey(c, args.term, p) in w.votes && w.votes[VoteKey(c, args.term, p)] == Asked(args))
    && var x := w.peers[c].node;
    && Keeps(w0.peers[c].node, x) && x.currentTerm == args.term
    && (x.state == Leader || (x.state == Candidate && 1 + Polled(c, o, k) <= x.grantedVotes <= n / 2))
  }

  // Whoever is not c or o votes for c.
  ghost predicate Supported(n: nat, w: World, c: nat, o: nat, args: RequestVoteArgs) {
    && |w.peers| == n && c != o
    && forall p: nat :: p < n && p != c ==>
         && |w.peers[p].node.logs| > 0 && w.peers[p].node.currentTerm < args.term
         && (p != o ==> IsLogUpToDate(w.peers[p].node, args.lastLogIndex, args.lastLogTerm))
  }

  lemma PollOne(n: nat, w0: World, w: World, c: nat, o: nat, args: RequestVoteArgs, k: nat) returns (w': World)
    requires Polling(n, w0, w, c, o, args, k) && Supported(n, w0, c, o, args) && k < n
    ensures Polling(n, w0, w', c, o, args, k + 1)
  {
    hide Reachable, Fine, IsLogUpToDate;
    if k == c {
      w' := w;
    } else {
      var key := VoteKey(c, args.term, k);
      var w1 := Ask(n, w, key, args);
      if IsLogUpToDate(w.peers[k].node, args.lastLogIndex, args.lastLogTerm) {
        w' := Tally(n, w1, key, args);
      } else {
        w' := w1;
      }
    }
  }

  lemma {:induction false} Poll(n: nat, w0: World, w: World, c: nat, o: nat, args: RequestVoteArgs,
                                k: nat) returns (w': World)
    requires Polling(n, w0, w, c, o, args, k) && Supported(n, w0, c, o, args)
    ensures Polling(n, w0, w', c, o, args, n)
    decreases n - k
  {
    hide Polling, Supported;
    if k < n {
      var w1 := PollOne(n, w0, w, c, o, args, k);
      w' := Poll(n, w0, w1, c, o, args, k + 1);
    } else {
      assert k == n by { PollingBound(n, w0, w, c, o, args, k); }
      w' := w;
    }
  }

  lemma PollingBound(n: nat, w0: World, w: World, c: nat, o: nat, args: RequestVoteArgs, k: nat)
    requires Polling(n, w0, w, c, o, args, k)
    ensures k <= n
  {
  }

  // Everyone is in the new term, c leads it.
  ghost predicate Crowned(n: nat, w: World, w': World, c: nat, term: int) {
    && |w.peers| == |w'.peers| == n
    && forall p: nat :: p < n ==>
         && Keeps(w.peers[p].node, w'.peers[p].node) && w'.peers[p].node.currentTerm == term
         && w'.peers[p].node.state == if p == c then Leader else Follower
  }

  lemma Elect(n: nat, w: World, c: nat, o: nat) returns (w': World)
    requires n >= 3 && Up(n, w) && c < n && o < n && w.peers[c].node.state != Leader
    requires Supported(n, w, c, o, GenRequestVoteArgs(Stood(w.peers[c].node)))
    ensures Up(n, w') && Crowned(n, w, w', c, w.peers[c].node.currentTerm + 1) && w'.acks == w.acks
  {
    hide Reachable, Fine, IsLogUpToDate, Supported;
    MeIs(n, w, c);
    var args := GenRequestVoteArgs(Stood(w.peers[c].node));
    var w1 := Stand(n, w, c);
    w' := Poll(n, w, w1, c, o, args, 0);
    assert c != o by { SupportedApart(n, w, c, o, args); }
  }

  lemma MeIs(n: nat, w: World, c: nat)
    requires Up(n, w) && c < n
    ensures w.peers[c].node.me == c && |w.peers[c].node.logs| > 0
  {
  }

  lemma SupportedApart(n: nat, w: World, c: nat, o: nat, args: RequestVoteArgs)
    requires Supported(n, w, c, o, args)
    ensures c != o
  {
  }

  // ------------------------------------------------------------------ replication

  lemma Propose(n: nat, w: World, p: nat, command: Command) returns (w': World)
    requires Up(n, w) && p < n && w.peers[p].node.state == Leader
    ensures Up(n, w') && Only(w, w', p, Start(w.peers[p].node, command).node) && w'.acks == w.acks
  {
    hide Reachable, Note;
    Go(n, w, Submit(p, command));
    w' := Act(Config(n, false), w, Submit(p, command));
  }

  function Args(l: Node, to: nat): AppendEntriesArgs
    requires Contiguous(l.logs) && to < |l.nextIndex| && l.logs[0].index <= l.nextIndex[to] - 1 <= LastLog(l).index
  {
    GenAppendEntriesArgs(l, l.nextIndex[to] - 1)
  }

  lemma Offer(n: nat, w: World, l: nat, f: nat) returns (w': World)
    requires Up(n, w) && l < n && f < n && l != f && w.peers[l].node.state == Leader
    requires var x := w.peers[l].node; x.logs[0].index <= x.nextIndex[f] - 1 <= LastLog(x).index
    ensures Up(n, w') && w'.peers == w.peers && w'.acks == w.acks
    ensures AppendMsg(f, Args(w.peers[l].node, f)) in w'.appends
  {
    hide Reachable, Note;
    Go(n, w, SendAppend(l, f));
    w' := Act(Config(n, false), w, SendAppend(l, f));
  }

  // The leader's log is of the same term and starts like every log; f's differs from it in
  // its first entry, or is the same.
  ghost predicate Takes(f: Node, log: seq<LogEntry>) {
    && Contiguous(log) && |log| > 1 && log[0] == Dummy && Contiguous(f.logs) && f.logs[0] == Dummy
    && (|f.logs| == 1 || f.logs[1].term != log[1].term || f.logs == log)
  }

  // Everything from index 1 on.
  ghost predicate Whole(a: AppendEntriesArgs, log: seq<LogEntry>) {
    a.prevLogIndex == 0 && a.prevLogTerm == 0 && |log| > 0 && a.entries == log[1..]
  }

  lemma TakesAll(f: Node, a: AppendEntriesArgs, log: seq<LogEntry>)
    requires Takes(f, log) && Whole(a, log) && a.term == f.currentTerm
    ensures AppendEntries(f, a).reply.success
    ensures var f' := AppendEntries(f, a).node;
      f' == f.(logs := log, state := Follower, commitIndex := Max(f.commitIndex, Min(a.leaderCommit, |log| - 1)))
  {
    MergeWhole(f, log);
    LastPosition(f.logs);
    LastPosition(log);
    hide Merge, FirstNew, Contiguous;
  }

  lemma MergeWhole(f: Node, log: seq<LogEntry>)
    requires Takes(f, log)
    ensures Merge(f.logs, 1, log[1..]) == log
  {
    var entries := log[1..];
    FirstNewIsFirst(f.logs, 1, entries, 0);
    var k := FirstNew(f.logs, 1, entries, 0);
    hide FirstNew, Contiguous;
    if f.logs == log {
      assert k == |entries|;
    } else {
      assert k == 0;
      assert f.logs[..1] + entries == log;
    }
  }

  lemma Receive(n: nat, w: World, m: AppendMsg, log: seq<LogEntry>) returns (w': World)
    requires Up(n, w) && m in w.appends && m.to < n && forall x :: x in w.acks ==> x.msg != m
    requires Takes(w.peers[m.to].node, log) && Whole(m.args, log) && m.args.term == w.peers[m.to].node.currentTerm
    ensures Up(n, w') && Only(w, w', m.to, AppendEntries(w.peers[m.to].node, m.args).node)
    ensures w'.acks == w.acks + {AppendAck(m, AppendEntries(w.peers[m.to].node, m.args).reply)}
    ensures var f, f' := w.peers[m.to].node, w'.peers[m.to].node;
      && AppendEntries(f, m.args).reply.success
      && f' == f.(logs := log, state := Follower, commitIndex := f'.commitIndex)
      && (m.args.leaderCommit == 0 ==> f'.commitIndex == f.commitIndex)
  {
    hide Reachable, Note, AppendEntries, Takes, Whole;
    Go(n, w, RecvAppend(m));
    w' := Act(Config(n, false), w, RecvAppend(m));
    TakesAll(w.peers[m.to].node, m.args, log);
    TakesWrites(w.peers[m.to].node, m.args, log);
  }

  lemma TakesWrites(f: Node, a: AppendEntriesArgs, log: seq<LogEntry>)
    requires Takes(f, log) && Whole(a, log) && a.term == f.currentTerm
    ensures forall d :: d in AppendEntries(f, a).writes ==> |d.logs| > 0
    ensures Contiguous(log) && log[0] == Dummy
  {
    TakesAll(f, a, log);
    hide Merge;
  }

  lemma Hear(n: nat, w: World, x: AppendAck) returns (w': World)
    requires Up(n, w) && x in w.acks && x.msg.to < n && x.msg.args.leaderId < n && x.reply.success
    requires var l := w.peers[x.msg.args.leaderId].node;
      && l.state == Leader && l.currentTerm == x.msg.args.term
      && x.msg.args.prevLogIndex == 0 && |x.msg.args.entries| < |l.logs|
    ensures Up(n, w') && w'.acks == w.acks
    ensures var l, upto := w.peers[x.msg.args.leaderId].node, |x.msg.args.entries|;
      Only(w, w', x.msg.args.leaderId,
           AdvanceCommit(l.(matchIndex := l.matchIndex[x.msg.to := upto],
                            nextIndex := l.nextIndex[x.msg.to := upto + 1])))
  {
    hide Reachable, Note, AdvanceCommit;
    Go(n, w, RecvAck(x));
    w' := Act(Config(n, false), w, RecvAck(x));
    var l, upto := w.peers[x.msg.args.leaderId].node, |x.msg.args.entries|;
    AdvanceIs(l.(matchIndex := l.matchIndex[x.msg.to := upto], nextIndex := l.nextIndex[x.msg.to := upto + 1]));
  }

  lemma AdvanceIs(x: Node)
    requires Contiguous(x.logs) && |x.matchIndex| > 0 && x.logs[0].index == 0 <= x.commitIndex
    ensures AdvanceCommit(x) == x.(commitIndex := AdvanceCommit(x).commitIndex)
    ensures AdvanceCommit(x).commitIndex >= x.commitIndex
    ensures x.commitIndex < |x.logs| ==> AdvanceCommit(x).commitIndex < |x.logs|
    ensures (forall i :: 1 <= i < |x.logs| ==> x.logs[i].term != x.currentTerm) ==>
      AdvanceCommit(x).commitIndex == x.commitIndex
    ensures Settled(AdvanceCommit(x))
  {
    hide MajorityIndex;
  }

  // A majority for the last entry, if that is of the current term, is not overlooked.
  ghost predicate Settled(x: Node) {
    var last := |x.logs| - 1;
    last > 0 && |x.matchIndex| > 0 && x.logs[last].term == x.currentTerm && MajorityIndex(x.matchIndex) == last ==>
      x.commitIndex >= last
  }

  // A round trip of everything to everyone but o, done for those below k.
  ghost predicate Replicating(n: nat, w0: World, w: World, l: nat, o: nat, k: nat) {
    && Up(n, w0) && Up(n, w) && l < n && o < n && k <= n
    && var x0, x := w0.peers[l].node, w.peers[l].node;
    && Heard(w, x0.currentTerm, k) && w.peers[o] == w0.peers[o]
    && (forall p: nat :: p < n && p != l && p != o ==>
          if p < k then
            w.peers[p].node.logs == x0.logs && w.peers[p].node.state == Follower
            && w.peers[p].node.currentTerm == x0.currentTerm
          else w.peers[p] == w0.peers[p])
    && x == x0.(nextIndex := x.nextIndex, matchIndex := x.matchIndex, commitIndex := x.commitIndex)
    && (forall p: nat :: p < n ==>
          if p < k && p != l && p != o then x.matchIndex[p] == |x.logs| - 1 && x.nextIndex[p] == |x.logs|
          else x.matchIndex[p] == x0.matchIndex[p] && x.nextIndex[p] == x0.nextIndex[p])
    && ((forall i :: 1 <= i < |x.logs| ==> x.logs[i].term != x.currentTerm) ==> x.commitIndex == x0.commitIndex)
    && x.commitIndex < |x.logs| && (Polled(l, o, k) >= 1 ==> Settled(x))
  }

  ghost predicate Takers(n: nat, w: World, l: nat, o: nat) {
    && |w.peers| == n && l < n && o < n && l != o && |w.peers[l].node.nextIndex| == n
    && var x := w.peers[l].node;
    && x.state == Leader && |x.logs| > 1
    && forall p: nat :: p < n && p != l && p != o ==>
         x.nextIndex[p] == 1 && Takes(w.peers[p].node, x.logs) && w.peers[p].node.currentTerm == x.currentTerm
  }

  // l sends f its whole log.
  ghost predicate Ships(n: nat, w: World, l: nat, f: nat) {
    && Up(n, w) && l < n && f < n && l != f
    && var x := w.peers[l].node;
    && x.state == Leader && x.nextIndex[f] == 1 && Takes(w.peers[f].node, x.logs) && x.commitIndex < |x.logs|
    && w.peers[f].node.currentTerm == x.currentTerm && Heard(w, x.currentTerm, f)
  }

  // One message with the whole log, accepted; the answer is on its way.
  lemma Ship(n: nat, w: World, l: nat, f: nat) returns (w': World, ack: AppendAck)
    requires Ships(n, w, l, f)
    ensures Up(n, w') && Heard(w', w.peers[l].node.currentTerm, f + 1) && Only(w, w', f, w'.peers[f].node)
    ensures var x, z, z' := w.peers[l].node, w.peers[f].node, w'.peers[f].node;
      && z' == z.(logs := x.logs, state := Follower, commitIndex := z'.commitIndex)
      && (x.commitIndex == 0 ==> z'.commitIndex == z.commitIndex)
      && ack in w'.acks && ack.reply.success && ack.msg.to == f && ack.msg.args.leaderId == l
      && ack.msg.args.term == x.currentTerm && ack.msg.args.prevLogIndex == 0 && |ack.msg.args.entries| == |x.logs| - 1
  {
    hide Reachable, AppendEntries, Takes;
    var x := w.peers[l].node;
    LastPosition(x.logs);
    var a := Args(x, f);
    var m := AppendMsg(f, a);
    var w1 := Offer(n, w, l, f);
    w' := Receive(n, w1, m, x.logs);
    ack := AppendAck(m, AppendEntries(w.peers[f].node, a).reply);
  }

  // And answered.
  lemma RoundTrip(n: nat, w: World, l: nat, f: nat) returns (w': World)
    requires Ships(n, w, l, f)
    ensures Up(n, w') && Heard(w', w.peers[l].node.currentTerm, f + 1)
    ensures forall p: nat :: p < n && p != l && p != f ==> w'.peers[p] == w.peers[p]
    ensures var x, y, z := w.peers[l].node, w'.peers[l].node, w'.peers[f].node;
      && z.logs == x.logs && z.state == Follower && z.currentTerm == x.currentTerm
      && y == x.(matchIndex := x.matchIndex[f := |x.logs| - 1], nextIndex := x.nextIndex[f := |x.logs|],
                 commitIndex := y.commitIndex)
      && y.commitIndex < |y.logs| && Settled(y)
      && ((forall i :: 1 <= i < |x.logs| ==> x.logs[i].term != x.currentTerm) ==> y.commitIndex == x.commitIndex)
  {
    hide Reachable, AdvanceCommit, Takes, Settled;
    var x := w.peers[l].node;
    var w1, ack := Ship(n, w, l, f);
    w' := Hear(n, w1, ack);
    AdvanceIs(x.(matchIndex := x.matchIndex[f := |x.logs| - 1], nextIndex := x.nextIndex[f := |x.logs|]));
  }

  lemma ReplicateOne(n: nat, w0: World, w: World, l: nat, o: nat, k: nat) returns (w': World)
    requires Replicating(n, w0, w, l, o, k) && Takers(n, w0, l, o) && k < n
    ensures Replicating(n, w0, w', l, o, k + 1)
  {
    hide Reachable, Takes, Settled, Fine;
    if k == l || k == o {
      w' := w;
    } else {
      assert |w.peers[l].node.nextIndex| == n && |w.peers[l].node.matchIndex| == n by { Sizes(n, w, l); }
      w' := RoundTrip(n, w, l, k);
      assert |w'.peers[l].node.nextIndex| == n && |w'.peers[l].node.matchIndex| == n by { Sizes(n, w', l); }
    }
  }

  lemma Sizes(n: nat, w: World, p: nat)
    requires Up(n, w) && p < n
    ensures |w.peers[p].node.nextIndex| == |w.peers[p].node.matchIndex| == n
  {
  }

  lemma {:induction false} Replicate(n: nat, w0: World, w: World, l: nat, o: nat, k: nat) returns (w': World)
    requires Replicating(n, w0, w, l, o, k) && Takers(n, w0, l, o)
    ensures Replicating(n, w0, w', l, o, n)
    decreases n - k
  {
    hide Replicating, Takers;
    if k < n {
      var w1 := ReplicateOne(n, w0, w, l, o, k);
      w' := Replicate(n, w0, w1, l, o, k + 1);
    } else {
      assert k == n by { ReplicatingBound(n, w0, w, l, o, k); }
      w' := w;
    }
  }

  lemma ReplicatingBound(n: nat, w0: World, w: World, l: nat, o: nat, k: nat)
    requires Replicating(n, w0, w, l, o, k)
    ensures k <= n
  {
  }

  // ------------------------------------------------------------------ the run

  // Between elections: everyone is in the same term; the logs of server 0, of server 2 and of
  // the rest; whether server 0 was ever told by the rest that they have its first log; and
  // what server 0 has committed.
  datatype Scene = Scene(term: int, lead: nat, log0: seq<LogEntry>, log2: seq<LogEntry>, rest: seq<LogEntry>,
                         told: bool, commit0: int)

  function LogIn(sc: Scene, p: nat): seq<LogEntry> {
    if p == 0 then sc.log0 else if p == 2 then sc.log2 else sc.rest
  }

  // nextIndex and matchIndex for the rest, and for the one other.
  ghost predicate Knows(x: Node, other: nat, next: int, matched: int) {
    && other < |x.nextIndex| == |x.matchIndex| && x.nextIndex[other] == 1 && x.matchIndex[other] == 0
    && forall p :: 0 <= p < |x.nextIndex| && p != 0 && p != 2 ==> x.nextIndex[p] == next && x.matchIndex[p] == matched
  }

  ghost predicate Stage(n: nat, w: World, sc: Scene, heard: nat) {
    && n >= 3 && Up(n, w) && Heard(w, sc.term, heard)
    && (forall p: nat :: p < n ==>
          && w.peers[p].node.currentTerm == sc.term && w.peers[p].node.logs == LogIn(sc, p)
          && w.peers[p].node.state == if p == sc.lead then Leader else Follower)
    && (sc.commit0 == 0 ==> Knows(w.peers[0].node, 2, if sc.told then 3 else 1, if sc.told then 2 else 0))
    && w.peers[0].node.commitIndex == sc.commit0
    && Knows(w.peers[2].node, 0, 1, 0) && w.peers[2].node.commitIndex == 0
  }

  // The candidate's log is as good as the rest's.
  predicate Ahead(log: seq<LogEntry>, rest: seq<LogEntry>) {
    && |log| > 0 && |rest| > 0
    && var a, b := log[|log| - 1], rest[|rest| - 1];
    a.term > b.term || (a.term == b.term && a.index >= b.index)
  }

  lemma StageSupports(n: nat, w: World, sc: Scene, heard: nat, c: nat)
    requires Stage(n, w, sc, heard) && (c == 0 || c == 2) && Ahead(LogIn(sc, c), sc.rest)
    ensures |w.peers[c].node.logs| > 0 && w.peers[c].node.currentTerm == sc.term
    ensures Supported(n, w, c, 2 - c, GenRequestVoteArgs(Stood(w.peers[c].node)))
  {
    hide Reachable, Knows, Heard;
  }

  lemma NextTerm(n: nat, w: World, sc: Scene, heard: nat, c: nat) returns (w': World)
    requires Stage(n, w, sc, heard) && (c == 0 || c == 2) && sc.lead != c && Ahead(LogIn(sc, c), sc.rest)
    ensures Stage(n, w', sc.(term := sc.term + 1, lead := c), 0)
  {
    hide Reachable, Fine, Supported;
    StageSupports(n, w, sc, heard, c);
    w' := Elect(n, w, c, 2 - c);
  }

  function Next(log: seq<LogEntry>, command: Command, term: int): seq<LogEntry> {
    log + [LogEntry(command, term, |log|)]
  }

  lemma Command0(n: nat, w: World, sc: Scene, heard: nat, command: Command) returns (w': World)
    requires Stage(n, w, sc, heard) && sc.lead == 0
    ensures Stage(n, w', sc.(log0 := Next(sc.log0, command, sc.term)), heard)
    ensures w'.peers[0].node.matchIndex[0] == |sc.log0| && w'.acks == w.acks
  {
    hide Reachable;
    LastPosition(sc.log0);
    w' := Propose(n, w, 0, command);
  }

  lemma Command2(n: nat, w: World, sc: Scene, heard: nat, command: Command) returns (w': World)
    requires Stage(n, w, sc, heard) && sc.lead == 2
    ensures Stage(n, w', sc.(log2 := Next(sc.log2, command, sc.term)), heard)
    ensures w'.peers[2].node.matchIndex[2] == |sc.log2|
  {
    hide Reachable;
    LastPosition(sc.log2);
    w' := Propose(n, w, 2, command);
  }

  const X := Next(Next([Dummy], Command(1), 1), Command(1), 1)
  const Y := Next([Dummy], Command(2), 2)
  const Z := Next(Y, Command(3), 5)

  lemma Beginning(n: nat)
    requires n >= 3
    ensures Stage(n, Init(Config(n, false)), Scene(0, n, [Dummy], [Dummy], [Dummy], false, 0), 0)
  {
    var w := Init(Config(n, false));
    assert CalmRun(n, [w], []);
    assert [w][|[w]| - 1] == w;
  }

  lemma Terms1And2(n: nat) returns (w: World)
    requires n >= 3
    ensures Stage(n, w, Scene(2, 2, X, Y, [Dummy], false, 0), 0)
  {
    hide Stage;
    Beginning(n);
    var w0 := NextTerm(n, Init(Config(n, false)), Scene(0, n, [Dummy], [Dummy], [Dummy], false, 0), 0, 0);
    var w1 := Command0(n, w0, Scene(1, 0, [Dummy], [Dummy], [Dummy], false, 0), 0, Command(1));
    var w2 := Command0(n, w1, Scene(1, 0, Next([Dummy], Command(1), 1), [Dummy], [Dummy], false, 0), 0, Command(1));
    var w3 := NextTerm(n, w2, Scene(1, 0, X, [Dummy], [Dummy], false, 0), 0, 2);
    w := Command2(n, w3, Scene(2, 2, X, [Dummy], [Dummy], false, 0), 0, Command(2));
  }

  lemma TakesX(x: Node)
    requires x.logs == [Dummy]
    ensures Takes(x, X) && |X| == 3 && forall i :: 1 <= i < |X| ==> X[i].term == 1
  {
  }

  lemma Term3(n: nat) returns (w: World)
    requires n >= 3
    ensures Stage(n, w, Scene(3, 0, X, Y, X, true, 0), n)
  {
    var w0 := Terms1And2(n);
    var w1 := NextTerm(n, w0, Scene(2, 2, X, Y, [Dummy], false, 0), 0, 0);
    hide Reachable, Settled, Takes;
    forall p: nat | p < n && p != 0 && p != 2 ensures Takes(w1.peers[p].node, X) { TakesX(w1.peers[p].node); }
    TakesX(w1.peers[1].node);
    w := Replicate(n, w1, w1, 0, 2, 0);
  }

  lemma Term4(n: nat) returns (w: World)
    requires n >= 3
    ensures Stage(n, w, Scene(4, 2, Y, Y, X, true, 0), 1)
  {
    var w0 := Term3(n);
    var w1 := NextTerm(n, w0, Scene(3, 0, X, Y, X, true, 0), n, 2);
    hide Reachable, Fine;
    TakesY(w1.peers[0].node);
    var w2, ack := Ship(n, w1, 2, 0);
    w := w2;
  }

  lemma TakesY(x: Node)
    requires x.logs == X || x.logs == Y
    ensures Takes(x, Y) && |Y| == 2
  {
  }

  // All but one have reached x, and nobody more.
  lemma AllButOne(m: seq<int>, x: int, o: nat)
    requires |m| >= 3 && o < |m| && m[o] < x && forall p :: 0 <= p < |m| && p != o ==> m[p] == x
    ensures MajorityIndex(m) == x
  {
    MajorityIndexIsGreatest(m, x);
    var i := MajorityIndex(m);
    hide MajorityIndex;
    assert Reached(m, x) == Everyone(|m|) - {o};
    assert Majority(Reached(m, x), |m|);
    assert i > x ==> Reached(m, i) == {};
  }

  lemma Heartbeat5(n: nat) returns (w: World, ack: AppendAck)
    requires n >= 3
    ensures Stage(n, w, Scene(5, 0, Y, Y, X, true, 0), 3)
    ensures ack in w.acks && ack.reply.success && ack.msg.to == 2 && ack.msg.args.leaderId == 0
    ensures ack.msg.args.term == 5 && ack.msg.args.prevLogIndex == 0 && |ack.msg.args.entries| == 1
  {
    var w0 := Term4(n);
    var w1 := NextTerm(n, w0, Scene(4, 2, Y, Y, X, true, 0), 1, 0);
    hide Reachable, Fine;
    TakesY(w1.peers[2].node);
    w, ack := Ship(n, w1, 0, 2);
  }

  // Server 2 answers the heartbeat, and server 0 commits a command it has taken since.
  lemma Term5(n: nat) returns (w: World)
    requires n >= 3
    ensures Stage(n, w, Scene(5, 0, Z, Y, X, true, 2), 3)
  {
    var w0, ack := Heartbeat5(n);
    var w1 := Command0(n, w0, Scene(5, 0, Y, Y, X, true, 0), 3, Command(3));
    hide Reachable, Fine, AdvanceCommit;
    w := Hear(n, w1, ack);
    var x := w1.peers[0].node;
    CommitsZ(x.(matchIndex := x.matchIndex[2 := 1], nextIndex := x.nextIndex[2 := 2]));
  }

  lemma CommitsZ(x: Node)
    requires x.logs == Z && x.currentTerm == 5 && x.commitIndex == 0 && |x.matchIndex| >= 3
    requires x.matchIndex[2] == 1 && forall p :: 0 <= p < |x.matchIndex| && p != 2 ==> x.matchIndex[p] == 2
    ensures AdvanceCommit(x) == x.(commitIndex := 2)
  {
    AllButOne(x.matchIndex, 2, 2);
    hide MajorityIndex;
  }

  lemma BothCommitted(n: nat, w0: World, w: World)
    requires Stage(n, w0, Scene(6, 2, Z, Next(Y, Command(4), 6), X, true, 2), 0) && w0.peers[2].node.matchIndex[2] == 2
    requires Replicating(n, w0, w, 2, 0, n)
    ensures Conflict(w, w, 0, 2, 2)
  {
    hide Reachable, Heard;
    AllButOne(w.peers[2].node.matchIndex, 2, 0);
    hide MajorityIndex;
  }

  lemma Term6(n: nat) returns (w: World)
    requires n >= 3
    ensures Reachable(n, w) && Conflict(w, w, 0, 2, 2)
  {
    hide Reachable, Conflict;
    var w0 := Term5(n);
    var w1 := NextTerm(n, w0, Scene(5, 0, Z, Y, X, true, 2), 3, 2);
    var w2 := Command2(n, w1, Scene(6, 2, Z, Y, X, true, 2), 0, Command(4));
    hide Settled;
    w := Replicate(n, w2, w2, 2, 0, 0);
    BothCommitted(n, w2, w);
    hide Stage, Heard, Fine;
  }

  // With three servers or more the code as written can commit two entries at one index.
  lemma StaleMatchIndexBreaksSafety(n: nat)
    requires n >= 3
    ensures exists ws, acts :: CalmRun(n, ws, acts) && Conflict(ws[|ws| - 1], ws[|ws| - 1], 0, 2, 2)
  {
    var w := Term6(n);
    var ws, acts :| CalmRun(n, ws, acts) && ws[|ws| - 1] == w;
  }
}
