/**
  What each handler owes its callers, said without the handler: which votes are granted,
  which messages are accepted, what is committed, where the next message starts, what a
  snapshot leaves.  The safety proofs bound what a server may do; these say what it does.
 */
module RaftDuties {
  import opened RaftNode
  import opened Quorum
  import P = RaftProtocol
  import opened RaftInvariant
  import RaftActions
  import opened RaftBelief
  import RaftSafety

  ghost function Last(n: Node): int
    requires |n.logs| > 0
  {
    n.logs[0].index + |n.logs| - 1
  }

  ghost predicate Stored(n: Node, i: int) {
    |n.logs| > 0 && n.logs[0].index <= i <= Last(n)
  }

  // The entry with index i.
  ghost function At(n: Node, i: int): LogEntry
    requires Stored(n, i)
  {
    n.logs[i - n.logs[0].index]
  }

  // ------------------------------------------------------------------ commit

  // The greatest index that a majority has reached.
  ghost predicate Greatest(matchIndex: seq<int>, c: int) {
    && Majority(Reached(matchIndex, c), |matchIndex|)
    && forall d :: d > c ==> !Majority(Reached(matchIndex, d), |matchIndex|)
  }

  lemma GreatestIs(matchIndex: seq<int>, c: int)
    requires |matchIndex| > 0
    ensures Greatest(matchIndex, c) <==> c == MajorityIndex(matchIndex)
  {
    var m := MajorityIndex(matchIndex);
    forall d | d > m ensures !Majority(Reached(matchIndex, d), |matchIndex|) {
      MajorityIndexIsGreatest(matchIndex, d);
    }
    MajorityIndexIsGreatest(matchIndex, c);
    hide MajorityIndex, Majority, Reached;
  }

  // The leader commits the greatest index a majority has reached, if that is news to it and
  // the entry there is in its log and of its own term; otherwise nothing changes.
  lemma CommitRule(n: Node, c: int)
    requires Contiguous(n.logs) && |n.matchIndex| > 0 && FirstLog(n).index <= n.commitIndex
    requires Greatest(n.matchIndex, c)
    ensures AdvanceCommit(n) ==
      if n.commitIndex < c <= Last(n) && At(n, c).term == n.currentTerm then n.(commitIndex := c) else n
  {
    GreatestIs(n.matchIndex, c);
    LastPosition(n.logs);
    hide Greatest, MajorityIndex, Contiguous;
  }

  // ------------------------------------------------------------------ commands

  // A leader answers with the place of the new entry; anyone else refuses.
  lemma StartDuty(n: Node, command: Command)
    requires Contiguous(n.logs) && n.me < |n.nextIndex| == |n.matchIndex|
    ensures var o := Start(n, command);
      var (i, t, accepted) := o.reply;
      && (accepted <==> n.state == Leader)
      && (accepted ==>
            (&& t == n.currentTerm && i == Last(n) + 1
             && |o.node.logs| == |n.logs| + 1 && o.node.logs[..|n.logs|] == n.logs
             && LastLog(o.node) == LogEntry(command, t, i)
             && o.node == n.(logs := o.node.logs, matchIndex := n.matchIndex[n.me := i],
                             nextIndex := n.nextIndex[n.me := i + 1])
             && o.writes == [DurableOf(o.node)]))
      && (!accepted ==> i == -1 && t == -1 && o.node == n && o.writes == [])
  {
    LastPosition(n.logs);
    hide Contiguous;
  }

  lemma Submitted(cfg: P.Config, w: P.World, p: nat, command: Command)
    requires Inv(w) && P.Enabled(w, P.Submit(p, command))
    ensures P.PeerOk(w, p) && w.peers[p].node.logs[0].index == 0
    ensures var w' := P.Act(cfg, w, P.Submit(p, command));
      p < |w'.peers| && w'.peers[p].node == Start(w.peers[p].node, command).node
  {
    hide Inv, P.Note;
    FirstIsDummy(w, p);
  }

  lemma RunStep(cfg: P.Config, ws: seq<P.World>, acts: seq<P.Action>, a: nat)
    requires P.IsRun(cfg, ws, acts) && a < |acts|
    ensures P.Enabled(ws[a], acts[a]) && ws[a + 1] == P.Act(cfg, ws[a], acts[a])
  {
    hide P.Enabled, P.Act;
  }

  // Whoever, at any time of the run, has an entry of the answered term at the answered index
  // has the caller's command there.
  lemma StartedCommand(cfg: P.Config, ws: seq<P.World>, acts: seq<P.Action>, a: nat, b: nat,
                       p: nat, command: Command, q: nat)
    requires P.IsRun(cfg, ws, acts) && a < |acts| && acts[a] == P.Submit(p, command) && b < |ws| && q < cfg.n
    requires P.PeerOk(ws[a], p)
    ensures |ws[b].peers| == cfg.n
    ensures var (i, t, accepted) := Start(ws[a].peers[p].node, command).reply;
      var log := ws[b].peers[q].node.logs;
      accepted && 0 <= i < |log| && log[i].term == t ==> log[i] == LogEntry(command, t, i)
  {
    hide Inv, Later, P.Enabled, P.Act, Start;
    var n := ws[a].peers[p].node;
    RunStep(cfg, ws, acts, a);
    RaftActions.RunInv(cfg, ws, acts, a, a + 1);
    Submitted(cfg, ws[a], p, command);
    StartDuty(n, command);
    var (i, t, accepted) := Start(n, command).reply;
    hide P.IsRun, Contiguous;
    if accepted {
      if a + 1 <= b {
        RaftSafety.LogMatching(cfg, ws, acts, a + 1, b, p, q, i);
        SameEntry(ws[a + 1].peers[p].node.logs, ws[b].peers[q].node.logs, i);
      } else {
        RaftSafety.LogMatching(cfg, ws, acts, b, a + 1, q, p, i);
        SameEntry(ws[b].peers[q].node.logs, ws[a + 1].peers[p].node.logs, i);
      }
    }
    RaftActions.RunInv(cfg, ws, acts, b, b);
  }

  lemma SameEntry(x: seq<LogEntry>, y: seq<LogEntry>, i: nat)
    ensures i < |x| && i < |y| && x[..i + 1] == y[..i + 1] ==> x[i] == y[i]
  {
    assert i < |x| && i < |y| ==> x[..i + 1][i] == x[i] && y[..i + 1][i] == y[i];
  }

  // ------------------------------------------------------------------ votes

  // A vote is granted exactly to a candidate of no earlier term, with a log no worse, if the
  // vote of that term is not someone else's.
  lemma VoteDuty(n: Node, a: RequestVoteArgs)
    requires Contiguous(n.logs)
    ensures var o, mine := RequestVote(n, a), n.logs[|n.logs| - 1];
      && (o.reply.voteGranted <==>
            (&& a.term >= n.currentTerm
             && (a.term == n.currentTerm ==> n.votedFor == -1 || n.votedFor == a.candidateId)
             && (a.lastLogTerm > mine.term || (a.lastLogTerm == mine.term && a.lastLogIndex >= Last(n)))))
      && o.reply.term == o.node.currentTerm == Max(n.currentTerm, a.term)
      && o.node == n.(currentTerm := o.node.currentTerm, votedFor := o.node.votedFor, state := o.node.state)
      && o.node.state == (if a.term > n.currentTerm then Follower else n.state)
      && o.node.votedFor ==
         (if o.reply.voteGranted then a.candidateId else if a.term > n.currentTerm then -1 else n.votedFor)
      && Saved(n, o.node, o.writes)
  {
    LastPosition(n.logs);
    hide Contiguous;
  }

  // Nothing durable has changed, or the last write is what memory says now.
  ghost predicate Saved(n: Node, n': Node, writes: seq<Durable>) {
    if writes == [] then DurableOf(n') == DurableOf(n) else writes[|writes| - 1] == DurableOf(n')
  }

  // A candidate asks with its new term and the end of its own log.  On disk the new term goes
  // first, still with the vote of the old one.
  lemma StandDuty(n: Node)
    requires Contiguous(n.logs)
    ensures var o := ElectionTimeout(n);
      && o.reply == RequestVoteArgs(n.currentTerm + 1, n.me, Last(n), n.logs[|n.logs| - 1].term)
      && o.node == n.(currentTerm := n.currentTerm + 1, votedFor := n.me, state := Candidate, grantedVotes := 1)
      && Saved(n, o.node, o.writes)
      && o.writes == [Durable(n.currentTerm + 1, n.votedFor, n.logs), DurableOf(o.node)]
  {
    LastPosition(n.logs);
    hide Contiguous;
  }

  // Only a candidate still in the term of its call listens: a vote counts, and more than half
  // of the servers make it leader; a larger term makes it a follower without a vote.
  lemma VoteReplyDuty(n: Node, a: RequestVoteArgs, r: RequestVoteReply)
    requires |n.logs| > 0
    ensures var o := VoteReply(n, a, r, false);
      && Saved(n, o.node, o.writes)
      && if a.term != n.currentTerm || n.state != Candidate then o.node == n
         else if r.voteGranted then
           && o.node == n.(grantedVotes := n.grantedVotes + 1, state := o.node.state)
           && o.node.state == if 2 * (n.grantedVotes + 1) > |n.matchIndex| then Leader else Candidate
         else if r.term > n.currentTerm then
           && o.node == n.(currentTerm := r.term, votedFor := -1, state := Follower)
           && o.writes == [Durable(r.term, -1, n.logs)]
         else o.node == n
  {
  }

  // ------------------------------------------------------------------ messages

  // A message carries the leader's term and commit index, and everything after prev.
  lemma MessageDuty(n: Node, prev: int)
    requires Contiguous(n.logs) && Stored(n, prev) && FirstLog(n).index <= prev <= LastLog(n).index
    ensures var a := GenAppendEntriesArgs(n, prev);
      && a.term == n.currentTerm && a.leaderId == n.me && a.leaderCommit == n.commitIndex
      && a.prevLogIndex == prev && a.prevLogTerm == At(n, prev).term
      && |a.entries| == Last(n) - prev
      && forall i :: prev < i <= Last(n) ==> a.entries[i - prev - 1] == At(n, i)
  {
  }

  // At the first index it looks at the term differs already, so the scan goes nowhere.
  lemma ScanStays(n: Node, index: int, term: int)
    requires Contiguous(n.logs) && Stored(n, index) && index <= LastLog(n).index && At(n, index).term != term
    ensures ConflictScan(n, index, term) == index
  {
  }

  lemma MatchedMeans(n: Node, index: int, term: int)
    requires Contiguous(n.logs) && index >= FirstLog(n).index
    ensures IsLogMatched(n, index, term) <==> Stored(n, index) && At(n, index).term == term
  {
    LastPosition(n.logs);
  }

  // A message is accepted exactly when it is of no earlier term and its previous entry is in
  // the log; a refusal says where to try next.
  lemma AppendDuty(n: Node, a: AppendEntriesArgs)
    requires Contiguous(n.logs)
    ensures var o := AppendEntries(n, a);
      && (o.reply.success <==>
            (&& a.term >= n.currentTerm
             && Stored(n, a.prevLogIndex) && At(n, a.prevLogIndex).term == a.prevLogTerm))
      && o.reply.term == o.node.currentTerm == Max(n.currentTerm, a.term)
      && o.node.state == (if a.term >= n.currentTerm then Follower else n.state)
      && o.node.votedFor == (if a.term > n.currentTerm then -1 else n.votedFor)
      && (!o.reply.success ==> o.node.logs == n.logs && o.node.commitIndex == n.commitIndex)
      && (!o.reply.success && a.term >= n.currentTerm && a.prevLogIndex >= n.logs[0].index ==>
            (&& o.reply.conflictIndex == Min(Last(n), a.prevLogIndex) + 1
             && o.reply.conflictTerm == if Last(n) < a.prevLogIndex then -1 else a.prevLogTerm))
      && (o.reply.success || a.term < n.currentTerm || a.prevLogIndex < n.logs[0].index ==>
            o.reply.conflictIndex == 0 && o.reply.conflictTerm == 0)
      && o.node == n.(currentTerm := o.node.currentTerm, votedFor := o.node.votedFor, state := o.node.state,
                      logs := o.node.logs, commitIndex := o.node.commitIndex)
      && Saved(n, o.node, o.writes)
  {
    hide Merge, FirstNew, ConflictScan, IsLogMatched;
    LastPosition(n.logs);
    if a.term >= n.currentTerm && a.prevLogIndex >= n.logs[0].index {
      var seen := if a.term > n.currentTerm then StepDown(n, a.term) else n.(state := Follower);
      MatchedMeans(seen, a.prevLogIndex, a.prevLogTerm);
      if Stored(seen, a.prevLogIndex) && At(seen, a.prevLogIndex).term != a.prevLogTerm {
        ScanStays(seen, a.prevLogIndex, a.prevLogTerm);
      }
      if IsLogMatched(seen, a.prevLogIndex, a.prevLogTerm) {
        MergeIs(seen.logs, a.prevLogIndex - seen.logs[0].index + 1, a.entries);
      }
    }
    hide Contiguous;
  }

  // What an accepted message leaves at each index, by term, and how far it commits.
  lemma AcceptDuty(n: Node, a: AppendEntriesArgs)
    requires Contiguous(n.logs) && Follows(a.entries, a.prevLogIndex) && AppendEntries(n, a).reply.success
    ensures var n' := AppendEntries(n, a).node;
      && Contiguous(n'.logs) && n'.logs[0] == n.logs[0] && Last(n') >= a.prevLogIndex + |a.entries|
      && n'.commitIndex == Max(n.commitIndex, Min(a.leaderCommit, Last(n')))
    ensures var n' := AppendEntries(n, a).node;
      && (forall i :: n.logs[0].index <= i <= a.prevLogIndex ==> Stored(n, i) && Stored(n', i) && At(n', i) == At(n, i))
      && (forall k :: 0 <= k < |a.entries| ==> Taken(n, n', a.prevLogIndex + 1 + k, a.entries[k]))
  {
    hide AppendEntries, Merge, Follows;
    AcceptedStored(n, a);
    AcceptedLog(n, a);
    var at := a.prevLogIndex - n.logs[0].index + 1;
    var merged, n' := Merge(n.logs, at, a.entries), AppendEntries(n, a).node;
    MergeContiguous(n.logs, a.prevLogIndex, a.entries);
    LastPosition(merged);
    MergedBelow(n.logs, at, a.entries);
    hide Contiguous;
    forall k | 0 <= k < |a.entries| ensures Taken(n, n', a.prevLogIndex + 1 + k, a.entries[k]) {
      MergedAt(n.logs, at, a.entries, k);
    }
    hide Taken;
  }

  lemma AcceptedStored(n: Node, a: AppendEntriesArgs)
    requires Contiguous(n.logs) && AppendEntries(n, a).reply.success
    ensures Stored(n, a.prevLogIndex) && At(n, a.prevLogIndex).term == a.prevLogTerm
    ensures AppendEntries(n, a).node.currentTerm == a.term
  {
    hide AppendEntries;
    AppendDuty(n, a);
    hide Contiguous;
  }

  // Index i holds the entry, or what was there before with the same term.
  ghost predicate Taken(n: Node, n': Node, i: int, entry: LogEntry) {
    && Stored(n', i)
    && (At(n', i) == entry || (Stored(n, i) && At(n', i) == At(n, i) && At(n, i).term == entry.term))
  }

  lemma AcceptedLog(n: Node, a: AppendEntriesArgs)
    requires Contiguous(n.logs) && AppendEntries(n, a).reply.success
    requires Stored(n, a.prevLogIndex)
    ensures var merged, n' := Merge(n.logs, a.prevLogIndex - n.logs[0].index + 1, a.entries), AppendEntries(n, a).node;
      && n'.logs == merged && |merged| > 0
      && n'.commitIndex == Max(n.commitIndex, Min(a.leaderCommit, merged[|merged| - 1].index))
  {
    hide Merge, FirstNew, ConflictScan;
    MergeIs(n.logs, a.prevLogIndex - n.logs[0].index + 1, a.entries);
  }

  lemma MergedAt(logs: seq<LogEntry>, at: nat, entries: seq<LogEntry>, k: nat)
    requires at <= |logs| && k < |entries|
    ensures var merged := Merge(logs, at, entries);
      && at + k < |merged|
      && (merged[at + k] == entries[k]
          || (at + k < |logs| && merged[at + k] == logs[at + k] && logs[at + k].term == entries[k].term))
  {
    FirstNewIsFirst(logs, at, entries, 0);
    hide FirstNew;
    var j := FirstNew(logs, at, entries, 0);
    if k < j { assert logs[at + k].term == entries[k].term; }
  }

  lemma MergedBelow(logs: seq<LogEntry>, at: nat, entries: seq<LogEntry>)
    requires at <= |logs|
    ensures var merged := Merge(logs, at, entries);
      at + |entries| <= |merged| && forall i :: 0 <= i < at ==> merged[i] == logs[i]
  {
    hide FirstNew;
  }

  // A follower that accepts what the leader sends has the leader's terms from there on, and
  // has committed all that the leader has committed.
  lemma CatchesUp(l: Node, f: Node, prev: int)
    requires Contiguous(l.logs) && Contiguous(f.logs) && FirstLog(l).index <= prev <= LastLog(l).index
    requires AppendEntries(f, GenAppendEntriesArgs(l, prev)).reply.success
    ensures var f' := AppendEntries(f, GenAppendEntriesArgs(l, prev)).node;
      && (forall i :: prev <= i <= Last(l) ==> Stored(l, i) && Stored(f', i) && At(f', i).term == At(l, i).term)
      && (l.commitIndex <= Last(l) ==> f'.commitIndex >= l.commitIndex)
      && f'.currentTerm == l.currentTerm
  {
    hide AppendEntries, GenAppendEntriesArgs;
    var a := GenAppendEntriesArgs(l, prev);
    LastPosition(l.logs);
    MessageDuty(l, prev);
    MessageFollows(l, prev);
    AcceptedStored(f, a);
    AcceptDuty(f, a);
    hide Contiguous, Follows;
    var f' := AppendEntries(f, a).node;
    forall i | prev <= i <= Last(l) ensures Stored(l, i) && Stored(f', i) && At(f', i).term == At(l, i).term {
      if i > prev { assert Taken(f, f', a.prevLogIndex + 1 + (i - prev - 1), a.entries[i - prev - 1]); }
    }
  }

  lemma MessageFollows(n: Node, prev: int)
    requires Contiguous(n.logs) && FirstLog(n).index <= prev <= LastLog(n).index
    ensures Follows(GenAppendEntriesArgs(n, prev).entries, prev)
  {
  }

  // ------------------------------------------------------------------ replies

  // The last index up to `upto` with an entry of the term, or `otherwise` if there is none.
  ghost predicate LastOf(n: Node, upto: int, term: int, otherwise: int, r: int)
    requires |n.logs| > 0 && upto <= Last(n)
  {
    || (r == otherwise && forall i :: n.logs[0].index <= i <= upto ==> At(n, i).term != term)
    || (n.logs[0].index <= r <= upto && At(n, r).term == term && forall i :: r < i <= upto ==> At(n, i).term != term)
  }

  lemma {:induction false} BackUpIs(n: Node, index: int, term: int, otherwise: int)
    requires Contiguous(n.logs) && index <= LastLog(n).index
    ensures index <= Last(n) && LastOf(n, index, term, otherwise, BackUp(n, index, term, otherwise))
    decreases index - n.logs[0].index
  {
    LastPosition(n.logs);
    if index >= n.logs[0].index && At(n, index).term != term {
      BackUpIs(n, index - 1, term, otherwise);
    }
  }

  // Only a leader still in the term of its message listens.  A refusal of its own term moves
  // nextIndex to the hint; a larger term makes it a follower without a vote; a success is
  // noted, and what a majority then has is committed.
  lemma AppendReplyDuty(n: Node, peer: nat, a: AppendEntriesArgs, r: AppendEntriesReply, c: int)
    requires Contiguous(n.logs) && peer < |n.nextIndex| == |n.matchIndex| && FirstLog(n).index <= n.commitIndex
    requires a.term == n.currentTerm && n.state == Leader ==> a.prevLogIndex - 1 <= LastLog(n).index
    requires Greatest(n.matchIndex[peer := a.prevLogIndex + |a.entries|], c)
    ensures LastLog(n).index == Last(n)
    ensures var o, matched := AppendReply(n, peer, a, r), a.prevLogIndex + |a.entries|;
      && Saved(n, o.node, o.writes)
      && if a.term != n.currentTerm || n.state != Leader then o.node == n
         else if r.success then
           var commits := n.commitIndex < c <= Last(n) && At(n, c).term == n.currentTerm;
           o.node == n.(matchIndex := n.matchIndex[peer := matched], nextIndex := n.nextIndex[peer := matched + 1],
                        commitIndex := if commits then c else n.commitIndex)
         else if r.term > n.currentTerm then
           && o.node == n.(currentTerm := r.term, votedFor := -1, state := Follower)
           && o.writes == [Durable(r.term, -1, n.logs)]
         else if r.term == n.currentTerm then
           && o.node == n.(nextIndex := n.nextIndex[peer := o.node.nextIndex[peer]])
           && (r.conflictTerm == -1 ==> o.node.nextIndex[peer] == r.conflictIndex)
           && (r.conflictTerm != -1 ==>
                 LastOf(n, a.prevLogIndex - 1, r.conflictTerm, r.conflictIndex, o.node.nextIndex[peer]))
         else o.node == n
  {
    hide AdvanceCommit, BackUp, Greatest, LastOf;
    LastPosition(n.logs);
    var matched := a.prevLogIndex + |a.entries|;
    CommitRule(n.(matchIndex := n.matchIndex[peer := matched], nextIndex := n.nextIndex[peer := matched + 1]), c);
    if a.term == n.currentTerm && n.state == Leader {
      BackUpIs(n, a.prevLogIndex - 1, r.conflictTerm, r.conflictIndex);
    }
    hide Contiguous;
  }

  // ------------------------------------------------------------------ restart, snapshot

  // A restarted server knows what was saved and believes nothing of the others: led again, it
  // would begin with an empty message at its last entry.
  lemma RestartDuty(d: Durable, me: nat, peers: nat, q: nat)
    requires Contiguous(d.logs) && q < peers
    ensures var n := Restart(d, me, peers);
      && DurableOf(n) == d && n.me == me && n.state == Follower && n.grantedVotes == 0
      && n.commitIndex == n.lastApplied == d.logs[0].index
      && |n.nextIndex| == |n.matchIndex| == peers && n.matchIndex[q] == 0 && n.nextIndex[q] == Last(n) + 1
      && GenAppendEntriesArgs(n, n.nextIndex[q] - 1).entries == []
  {
    LastPosition(d.logs);
  }

  // A snapshot keeps the log from its index on, with the first command gone, and nothing else
  // changes; out of range it changes nothing.
  lemma SnapshotDuty(n: Node, index: int)
    requires Contiguous(n.logs)
    ensures var n' := Compact(n, index);
      if n.logs[0].index < index <= Last(n) then
        && Contiguous(n'.logs) && n'.logs[0] == LogEntry(Nil, At(n, index).term, index) && Last(n') == Last(n)
        && (forall i :: index < i <= Last(n) ==> Stored(n', i) && At(n', i) == At(n, i))
        && n' == n.(logs := n'.logs)
      else n' == n
  {
    LastPosition(n.logs);
  }

  // After a restart the service goes on right after its snapshot.
  lemma SnapshotRestart(n: Node, index: int, me: nat, peers: nat)
    requires Contiguous(n.logs) && n.logs[0].index < index <= Last(n)
    ensures |DurableOf(Compact(n, index)).logs| > 0
    ensures var n' := Restart(DurableOf(Compact(n, index)), me, peers);
      && n'.commitIndex == n'.lastApplied == index && Last(n') == Last(n)
      && n'.currentTerm == n.currentTerm && n'.votedFor == n.votedFor
  {
    SnapshotDuty(n, index);
    hide Compact;
  }
}
