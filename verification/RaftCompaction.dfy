/**
  Snapshots lose nothing a peer still needs.  A peer that discards its log up to
  delivered indices, at any moments it likes (also while a batch is being delivered),
  answers every vote request and every AppendEntries, sends the same entries and hands
  the same batches to its state machine as a peer that keeps the whole log.

  nextIndex is left out of the comparison: it only chooses which prevLogIndex a leader
  sends next, and that is an argument of the Send event here.
 */
module RaftCompaction {
  import opened RaftNode

  // A peer with its applier: while busy, entries up to `upto` are being delivered.
  datatype Site = Site(node: Node, busy: bool, upto: int)

  datatype Event =
    | Ask(vote: RequestVoteArgs)
    | Receive(append: AppendEntriesArgs)
    | Tick
    | Count(voteArgs: RequestVoteArgs, voteReply: RequestVoteReply)
    | Ack(peer: nat, args: AppendEntriesArgs, reply: AppendEntriesReply)
    | Propose(command: Command)
    | Send(prev: int)
    | Take
    | Done
    | Snapshot(index: int)

  datatype Answer =
    | Voted(voteReply: RequestVoteReply)
    | Appended(appendReply: AppendEntriesReply)
    | Standing(voteArgs: RequestVoteArgs)
    | Proposed(result: (int, int, bool))
    | Sent(appendArgs: AppendEntriesArgs)
    | Batch(entries: seq<LogEntry>)
    | Silent

  // Everything up to here has been handed to the state machine, or is about to be.
  function Delivered(s: Site): int {
    if s.busy then s.upto else s.node.lastApplied
  }

  ghost predicate Wf(s: Site) {
    && Contiguous(s.node.logs)
    && s.node.me < |s.node.nextIndex| == |s.node.matchIndex|
    && FirstLog(s.node).index <= Delivered(s) <= s.node.commitIndex
    && s.node.lastApplied <= Delivered(s)
  }

  // The events a peer handles by itself.  Below its first index it needs InstallSnapshot;
  // a service snapshots only what was delivered to it; committed entries are in the log.
  ghost predicate Guard(s: Site, e: Event)
    requires Wf(s)
  {
    var n := s.node;
    match e
    case Receive(a) => a.prevLogIndex >= FirstLog(n).index && Follows(a.entries, a.prevLogIndex)
    case Ack(peer, a, _) =>
      peer < |n.nextIndex| && (a.term == n.currentTerm && n.state == Leader ==> a.prevLogIndex - 1 <= LastLog(n).index)
    case Send(prev) => FirstLog(n).index <= prev <= LastLog(n).index
    case Take => !s.busy && n.lastApplied < n.commitIndex <= LastLog(n).index
    case Done => s.busy
    case Snapshot(index) => index <= Delivered(s)
    case _ => true
  }

  ghost predicate Allowed(s: Site, e: Event) {
    Wf(s) && Guard(s, e)
  }

  ghost function Handle(s: Site, e: Event): (Site, Answer)
    requires Allowed(s, e)
  {
    var n := s.node;
    match e
    case Ask(a) => var o := RequestVote(n, a); (s.(node := o.node), Voted(o.reply))
    case Receive(a) => var o := AppendEntries(n, a); (s.(node := o.node), Appended(o.reply))
    case Tick => var o := ElectionTimeout(n); (s.(node := o.node), Standing(o.reply))
    case Count(a, r) => (s.(node := VoteReply(n, a, r, false).node), Silent)
    case Ack(peer, a, r) => (s.(node := AppendReply(n, peer, a, r).node), Silent)
    case Propose(c) => var o := Start(n, c); (s.(node := o.node), Proposed(o.reply))
    case Send(prev) => (s, Sent(GenAppendEntriesArgs(n, prev)))
    case Take => (s.(busy := true, upto := n.commitIndex), Batch(ApplyBatch(n)))
    case Done => (Site(Applied(n, s.upto), false, s.upto), Silent)
    case Snapshot(index) => (s.(node := Compact(n, index)), Silent)
  }

  // The same peer with its whole log: it ignores Snapshot.
  ghost function HandleFull(s: Site, e: Event): (Site, Answer)
    requires Allowed(s, e)
  {
    if e.Snapshot? then (s, Silent) else Handle(s, e)
  }

  // c is f with the log below c's first index cut off.
  ghost predicate Cut(c: seq<LogEntry>, f: seq<LogEntry>) {
    && Contiguous(c) && Contiguous(f)
    && var k := c[0].index - f[0].index;
    && 0 <= k && k + |c| == |f|
    && c[0] == f[k].(command := c[0].command)
    && forall i :: 1 <= i < |c| ==> c[i] == f[k + i]
  }

  ghost predicate Refines(c: Site, f: Site) {
    && c.busy == f.busy && c.upto == f.upto
    && |c.node.nextIndex| == |f.node.nextIndex|
    && Cut(c.node.logs, f.node.logs)
    && c.node == f.node.(logs := c.node.logs, nextIndex := c.node.nextIndex)
  }

  // ------------------------------------------------------------- one event

  lemma CutLast(c: seq<LogEntry>, f: seq<LogEntry>)
    requires Cut(c, f)
    ensures c[|c| - 1].index == f[|f| - 1].index && c[|c| - 1].term == f[|f| - 1].term
  {
    var k := c[0].index - f[0].index;
    if |c| == 1 { assert f[k] == f[|f| - 1]; }
  }

  lemma CutAt(c: seq<LogEntry>, f: seq<LogEntry>, index: int)
    requires Cut(c, f) && c[0].index <= index < c[0].index + |c|
    ensures c[index - c[0].index].term == f[index - f[0].index].term
    ensures index > c[0].index ==> c[index - c[0].index] == f[index - f[0].index]
    ensures c[index - c[0].index + 1..] == f[index - f[0].index + 1..]
  {
  }

  lemma {:induction false} FirstNewCut(c: seq<LogEntry>, f: seq<LogEntry>, at: nat, k: nat, entries: seq<LogEntry>,
                                       x: nat)
    requires Cut(c, f) && k == c[0].index - f[0].index && 1 <= at && x <= |entries| && at + x <= |c|
    ensures FirstNew(c, at, entries, x) == FirstNew(f, k + at, entries, x)
    decreases |entries| - x
  {
    if x < |entries| && at + x < |c| {
      assert c[at + x] == f[k + at + x];
      if c[at + x].term == entries[x].term { FirstNewCut(c, f, at, k, entries, x + 1); }
    }
  }

  lemma CutReplace(c: seq<LogEntry>, f: seq<LogEntry>, p: nat, k: nat, tail: seq<LogEntry>)
    requires Cut(c, f) && k == c[0].index - f[0].index && 1 <= p <= |c| && Follows(tail, c[0].index + p - 1)
    ensures Cut(c[..p] + tail, f[..k + p] + tail)
  {
    ContiguousReplace(c, p, tail);
    ContiguousReplace(f, k + p, tail);
  }

  lemma CutSizes(c: seq<LogEntry>, f: seq<LogEntry>)
    requires Cut(c, f)
    ensures |c| > 0 && |f| > 0 && c[0].index >= f[0].index && |f| == |c| + c[0].index - f[0].index
    ensures Contiguous(c) && Contiguous(f)
    ensures c[|c| - 1].index == c[0].index + |c| - 1
  {
  }

  lemma MergeCut(c: seq<LogEntry>, f: seq<LogEntry>, prev: int, entries: seq<LogEntry>)
    requires Cut(c, f) && c[0].index <= prev < c[0].index + |c| && Follows(entries, prev)
    ensures 0 <= prev - f[0].index + 1 <= |f|
    ensures Cut(Merge(c, prev - c[0].index + 1, entries), Merge(f, prev - f[0].index + 1, entries))
    ensures FirstNew(c, prev - c[0].index + 1, entries, 0) == FirstNew(f, prev - f[0].index + 1, entries, 0)
  {
    hide Cut, Follows, FirstNew;
    CutSizes(c, f);
    hide Contiguous;
    var at, k := prev - c[0].index + 1, c[0].index - f[0].index;
    FirstNewCut(c, f, at, k, entries, 0);
    var x := FirstNew(c, at, entries, 0);
    FollowsTail(entries, prev, x);
    if x < |entries| {
      CutReplace(c, f, at + x, k, entries[x..]);
    }
  }

  lemma AcceptSame(m: Node, n: Node, a: AppendEntriesArgs)
    requires Cut(m.logs, n.logs) && m == n.(logs := m.logs, nextIndex := m.nextIndex)
    requires FirstLog(m).index <= a.prevLogIndex <= LastLog(m).index && Follows(a.entries, a.prevLogIndex)
    ensures FirstLog(n).index <= a.prevLogIndex <= LastLog(n).index
    ensures var m', n' := Accept(m, a), Accept(n, a);
      Cut(m'.logs, n'.logs) && m' == n'.(logs := m'.logs, nextIndex := m.nextIndex)
    ensures FirstNew(m.logs, a.prevLogIndex - m.logs[0].index + 1, a.entries, 0)
         == FirstNew(n.logs, a.prevLogIndex - n.logs[0].index + 1, a.entries, 0)
  {
    hide Cut, Merge, Follows, FirstNew;
    CutSizes(m.logs, n.logs);
    CutLast(m.logs, n.logs);
    hide Contiguous;
    MergeCut(m.logs, n.logs, a.prevLogIndex, a.entries);
    CutLast(Merge(m.logs, a.prevLogIndex - m.logs[0].index + 1, a.entries),
            Merge(n.logs, a.prevLogIndex - n.logs[0].index + 1, a.entries));
  }

  lemma MatchSame(m: Node, n: Node, index: int, term: int)
    requires Cut(m.logs, n.logs) && FirstLog(m).index <= index
    ensures FirstLog(n).index <= index && IsLogMatched(m, index, term) == IsLogMatched(n, index, term)
  {
    CutSizes(m.logs, n.logs);
    CutLast(m.logs, n.logs);
    if index <= LastLog(m).index { CutAt(m.logs, n.logs, index); }
  }

  lemma RejectSame(m: Node, n: Node, a: AppendEntriesArgs)
    requires Cut(m.logs, n.logs) && m == n.(logs := m.logs, nextIndex := m.nextIndex)
    requires FirstLog(m).index <= a.prevLogIndex && !IsLogMatched(m, a.prevLogIndex, a.prevLogTerm)
    ensures Rejection(m, a) == Rejection(n, a)
  {
    MatchSame(m, n, a.prevLogIndex, a.prevLogTerm);
    CutLast(m.logs, n.logs);
    hide Cut;
  }

  lemma AppendSame(m: Node, n: Node, a: AppendEntriesArgs)
    requires Cut(m.logs, n.logs) && m == n.(logs := m.logs, nextIndex := m.nextIndex)
    requires FirstLog(m).index <= a.prevLogIndex && Follows(a.entries, a.prevLogIndex)
    ensures var x, y := AppendEntries(m, a), AppendEntries(n, a);
      && x.reply == y.reply && Cut(x.node.logs, y.node.logs)
      && x.node == y.node.(logs := x.node.logs, nextIndex := m.nextIndex)
  {
    hide Cut, Accept, FirstNew, Rejection, Follows, IsLogMatched;
    CutSizes(m.logs, n.logs);
    if m.currentTerm <= a.term {
      var m1 := if a.term > m.currentTerm then StepDown(m, a.term) else m.(state := Follower);
      var n1 := if a.term > n.currentTerm then StepDown(n, a.term) else n.(state := Follower);
      MatchSame(m1, n1, a.prevLogIndex, a.prevLogTerm);
      if IsLogMatched(m1, a.prevLogIndex, a.prevLogTerm) {
        assert a.prevLogIndex <= LastLog(m1).index by { MatchedInLog(m1, a.prevLogIndex, a.prevLogTerm); }
        AcceptSame(m1, n1, a);
        AcceptKeeps(m1, a);
      } else {
        RejectSame(m1, n1, a);
      }
    }
  }

  lemma MatchedInLog(n: Node, index: int, term: int)
    requires Contiguous(n.logs) && index >= FirstLog(n).index && IsLogMatched(n, index, term)
    ensures index <= LastLog(n).index
  {
  }

  lemma AcceptKeeps(n: Node, a: AppendEntriesArgs)
    requires Contiguous(n.logs) && FirstLog(n).index <= a.prevLogIndex <= LastLog(n).index
    ensures Accept(n, a).currentTerm == n.currentTerm
  {
    hide Merge;
  }

  lemma CompactCut(c: seq<LogEntry>, f: seq<LogEntry>, index: int)
    requires Cut(c, f) && c[0].index < index <= c[|c| - 1].index
    ensures var rest := c[index - c[0].index..]; Cut(rest[0 := rest[0].(command := Nil)], f)
  {
    var k, j := c[0].index - f[0].index, index - c[0].index;
    var rest := c[j..];
    assert rest[0] == c[j] && c[j] == f[k + j];
  }

  // What the peer with the snapshot may be asked, the other may be asked too.
  lemma AllowedFull(c: Site, f: Site, e: Event)
    requires Refines(c, f) && Allowed(c, e)
    ensures Allowed(f, e)
  {
    CutSizes(c.node.logs, f.node.logs);
    CutLast(c.node.logs, f.node.logs);
    hide Cut, Contiguous, Follows;
  }

  lemma AskSame(c: Site, f: Site, a: RequestVoteArgs)
    requires Refines(c, f) && Allowed(c, Ask(a)) && Allowed(f, Ask(a))
    ensures Refines(Handle(c, Ask(a)).0, HandleFull(f, Ask(a)).0) && Handle(c, Ask(a)).1 == HandleFull(f, Ask(a)).1
  {
    CutSizes(c.node.logs, f.node.logs);
    CutLast(c.node.logs, f.node.logs);
    hide Cut, Contiguous;
  }

  lemma ElectionSame(c: Site, f: Site, e: Event)
    requires Refines(c, f) && Allowed(c, e) && Allowed(f, e) && (e.Tick? || e.Count?)
    ensures Refines(Handle(c, e).0, HandleFull(f, e).0) && Handle(c, e).1 == HandleFull(f, e).1
  {
    CutSizes(c.node.logs, f.node.logs);
    CutLast(c.node.logs, f.node.logs);
    hide Cut, Contiguous;
  }

  lemma ReceiveSame(c: Site, f: Site, a: AppendEntriesArgs)
    requires Refines(c, f) && Allowed(c, Receive(a)) && Allowed(f, Receive(a))
    ensures Refines(Handle(c, Receive(a)).0, HandleFull(f, Receive(a)).0)
    ensures Handle(c, Receive(a)).1 == HandleFull(f, Receive(a)).1
  {
    AppendSame(c.node, f.node, a);
    AppendKeepsNext(f.node, a);
    hide Cut, AppendEntries, Contiguous, Follows;
  }

  lemma AppendKeepsNext(n: Node, a: AppendEntriesArgs)
    requires Contiguous(n.logs)
    ensures AppendEntries(n, a).node.nextIndex == n.nextIndex
  {
    hide Merge, FirstNew, Rejection;
  }

  lemma AckSame(c: Site, f: Site, e: Event)
    requires Refines(c, f) && Allowed(c, e) && Allowed(f, e) && e.Ack?
    ensures Refines(Handle(c, e).0, HandleFull(f, e).0) && Handle(c, e).1 == HandleFull(f, e).1
  {
    hide Cut, MajorityIndex, BackUp;
    CutSizes(c.node.logs, f.node.logs);
    CutLast(c.node.logs, f.node.logs);
    var n := c.node;
    var matched := n.matchIndex[e.peer := e.args.prevLogIndex + |e.args.entries|];
    var newCommit := MajorityIndex(matched);
    if newCommit > n.commitIndex {
      MatchSame(n, f.node, newCommit, n.currentTerm);
    }
    hide Contiguous, IsLogMatched;
  }

  lemma ProposeSame(c: Site, f: Site, e: Event)
    requires Refines(c, f) && Allowed(c, e) && Allowed(f, e) && e.Propose?
    ensures Refines(Handle(c, e).0, HandleFull(f, e).0) && Handle(c, e).1 == HandleFull(f, e).1
  {
    CutSizes(c.node.logs, f.node.logs);
    CutLast(c.node.logs, f.node.logs);
    var m, n := c.node, f.node;
    var entry := LogEntry(e.command, n.currentTerm, LastLog(n).index + 1);
    CutReplace(m.logs, n.logs, |m.logs|, m.logs[0].index - n.logs[0].index, [entry]);
    assert m.logs[..|m.logs|] == m.logs && n.logs[..|n.logs|] == n.logs;
    hide Cut, Contiguous;
  }

  lemma SendSame(c: Site, f: Site, e: Event)
    requires Refines(c, f) && Allowed(c, e) && Allowed(f, e) && (e.Send? || e.Take? || e.Done?)
    ensures Refines(Handle(c, e).0, HandleFull(f, e).0) && Handle(c, e).1 == HandleFull(f, e).1
  {
    var m, n := c.node, f.node;
    if e.Send? { CutAt(m.logs, n.logs, e.prev); }
    if e.Take? { BatchSame(m, n); }
    hide Cut, Contiguous;
  }

  lemma SnapshotSame(c: Site, f: Site, index: int)
    requires Refines(c, f) && Allowed(c, Snapshot(index)) && Allowed(f, Snapshot(index))
    ensures Refines(Handle(c, Snapshot(index)).0, f) && Handle(c, Snapshot(index)).1 == Silent
  {
    var m := c.node;
    if m.logs[0].index < index <= LastLog(m).index { CompactCut(m.logs, f.node.logs, index); }
    hide Cut;
  }

  lemma BatchSame(m: Node, n: Node)
    requires Cut(m.logs, n.logs) && m.lastApplied == n.lastApplied && m.commitIndex == n.commitIndex
    requires FirstLog(m).index <= m.lastApplied <= m.commitIndex <= LastLog(m).index
    ensures FirstLog(n).index <= n.lastApplied <= n.commitIndex <= LastLog(n).index && ApplyBatch(m) == ApplyBatch(n)
  {
    CutSizes(m.logs, n.logs);
    CutLast(m.logs, n.logs);
  }

  lemma HandlesSame(c: Site, f: Site, e: Event)
    requires Refines(c, f) && Allowed(c, e)
    ensures Allowed(f, e)
    ensures Refines(Handle(c, e).0, HandleFull(f, e).0) && Handle(c, e).1 == HandleFull(f, e).1
  {
    hide Refines, Handle, Allowed;
    AllowedFull(c, f, e);
    match e {
      case Ask(a) => AskSame(c, f, a);
      case Tick => ElectionSame(c, f, e);
      case Count(_, _) => ElectionSame(c, f, e);
      case Receive(a) => ReceiveSame(c, f, a);
      case Ack(_, _, _) => AckSame(c, f, e);
      case Propose(_) => ProposeSame(c, f, e);
      case Snapshot(index) => SnapshotSame(c, f, index);
      case _ => SendSame(c, f, e);
    }
  }

  lemma WfReceive(s: Site, a: AppendEntriesArgs)
    requires Allowed(s, Receive(a))
    ensures Wf(Handle(s, Receive(a)).0)
  {
    hide Merge, FirstNew, ConflictScan, Follows;
    var n := s.node;
    if a.prevLogIndex <= LastLog(n).index {
      MergeContiguous(n.logs, a.prevLogIndex, a.entries);
    }
  }

  lemma WfPropose(s: Site, command: Command)
    requires Allowed(s, Propose(command))
    ensures Wf(Handle(s, Propose(command)).0)
  {
    hide Follows;
    var n := s.node;
    var entry := LogEntry(command, n.currentTerm, LastLog(n).index + 1);
    OneFollows(n.logs, entry);
    ContiguousReplace(n.logs, |n.logs|, [entry]);
    assert n.logs[..|n.logs|] == n.logs;
  }

  lemma WfVotes(s: Site, e: Event)
    requires Allowed(s, e) && (e.Ask? || e.Tick? || e.Count?)
    ensures Wf(Handle(s, e).0)
  {
    hide Contiguous;
  }

  // An allowed event never leaves the peer short of its first index.
  lemma WfKept(s: Site, e: Event)
    requires Allowed(s, e)
    ensures Wf(Handle(s, e).0)
  {
    hide MajorityIndex, BackUp, ElectionTimeout, RequestVote, VoteReply, AppendEntries, Follows, Start;
    match e {
      case Receive(a) => WfReceive(s, a);
      case Propose(command) => WfPropose(s, command);
      case Ask(_) => WfVotes(s, e);
      case Tick => WfVotes(s, e);
      case Count(_, _) => WfVotes(s, e);
      case _ =>
    }
  }

  lemma OneFollows(logs: seq<LogEntry>, entry: LogEntry)
    requires Contiguous(logs) && entry.index == logs[|logs| - 1].index + 1
    ensures Follows([entry], logs[0].index + |logs| - 1)
  {
  }

  // ----------------------------------------------------------- every history

  // The answers to a history of events, as long as they are allowed.
  ghost function Answers(s: Site, es: seq<Event>): seq<Answer>
    decreases |es|
  {
    if es == [] || !Allowed(s, es[0]) then []
    else [Handle(s, es[0]).1] + Answers(Handle(s, es[0]).0, es[1..])
  }

  ghost function AnswersFull(s: Site, es: seq<Event>): seq<Answer>
    decreases |es|
  {
    if es == [] || !Allowed(s, es[0]) then []
    else [HandleFull(s, es[0]).1] + AnswersFull(HandleFull(s, es[0]).0, es[1..])
  }

  // Each event passes its own guard when it comes.
  ghost predicate Guarded(s: Site, es: seq<Event>)
    decreases |es|
  {
    es != [] && Wf(s) ==> Guard(s, es[0]) && Guarded(Handle(s, es[0]).0, es[1..])
  }

  // Then all of them are answered.
  lemma {:induction false} AllAnswered(s: Site, es: seq<Event>)
    requires Wf(s) && Guarded(s, es)
    ensures |Answers(s, es)| == |es|
    decreases |es|
  {
    if es != [] {
      WfKept(s, es[0]);
      hide Wf, Handle, Guard;
      AllAnswered(Handle(s, es[0]).0, es[1..]);
    }
  }

  // Whatever snapshots are taken along the way, the answers are those of the full log.
  lemma {:induction false} CompactionRefines(c: Site, f: Site, es: seq<Event>)
    requires Refines(c, f)
    ensures Answers(c, es) <= AnswersFull(f, es)
    ensures Wf(c) && Guarded(c, es) ==> Answers(c, es) == AnswersFull(f, es) && |Answers(c, es)| == |es|
    decreases |es|
  {
    if Wf(c) && Guarded(c, es) { AllAnswered(c, es); }
    if es != [] && Allowed(c, es[0]) {
      HandlesSame(c, f, es[0]);
      if Wf(c) { WfKept(c, es[0]); }
      hide Refines, Handle, HandleFull, Wf, Guard;
      CompactionRefines(Handle(c, es[0]).0, HandleFull(f, es[0]).0, es[1..]);
    }
  }

  // ------------------------------------------------------------------ what is delivered

  // Everything handed to the state machine.
  ghost function Batches(answers: seq<Answer>): seq<LogEntry> {
    if answers == [] then []
    else (if answers[0].Batch? then answers[0].entries else []) + Batches(answers[1..])
  }

  lemma DeliveredStep(s: Site, e: Event)
    requires Allowed(s, e)
    ensures var (s', answer) := Handle(s, e);
      && answer.Batch? == e.Take?
      && Delivered(s') == Delivered(s) + (if e.Take? then |answer.entries| else 0)
      && (e.Take? ==> forall i :: 0 <= i < |answer.entries| ==> answer.entries[i].index == Delivered(s) + 1 + i)
  {
    hide ElectionTimeout, RequestVote, VoteReply, AppendEntries, AppendReply, Start;
    if !e.Take? && !e.Done? { KeepsApplied(s, e); }
  }

  lemma KeepsApplied(s: Site, e: Event)
    requires Allowed(s, e) && !e.Take? && !e.Done?
    ensures var s' := Handle(s, e).0;
      s'.busy == s.busy && s'.upto == s.upto && s'.node.lastApplied == s.node.lastApplied
  {
    hide Merge, FirstNew, ConflictScan, MajorityIndex, BackUp, Contiguous, Follows;
  }

  ghost function Part(answer: Answer): seq<LogEntry> {
    if answer.Batch? then answer.entries else []
  }

  lemma BatchesStep(s: Site, es: seq<Event>)
    requires es != [] && Allowed(s, es[0])
    ensures var (s', answer) := Handle(s, es[0]);
      Batches(Answers(s, es)) == Part(answer) + Batches(Answers(s', es[1..]))
  {
    hide Handle, Allowed;
    var (s', answer) := Handle(s, es[0]);
    assert Answers(s, es)[1..] == Answers(s', es[1..]);
  }

  // No gap and no repeat, whatever snapshots come between the batches or in the middle of one.
  lemma {:induction false} BatchesInOrder(s: Site, es: seq<Event>, i: nat)
    requires i < |Batches(Answers(s, es))|
    ensures Batches(Answers(s, es))[i].index == Delivered(s) + 1 + i
    decreases |es|
  {
    hide Handle, Allowed, Answers, Batches, Delivered;
    if es != [] && Allowed(s, es[0]) {
      DeliveredStep(s, es[0]);
      BatchesStep(s, es);
      var (s', answer) := Handle(s, es[0]);
      if i >= |Part(answer)| { BatchesInOrder(s', es[1..], i - |Part(answer)|); }
    } else {
      NoBatches(s, es);
    }
  }

  lemma NoBatches(s: Site, es: seq<Event>)
    requires es == [] || !Allowed(s, es[0])
    ensures Batches(Answers(s, es)) == []
  {
  }

  // The committed part of the log survives the event.
  ghost predicate Survives(s: Site, s': Site) {
    && |s.node.logs| > 0 && |s'.node.logs| > 0 && s'.node.logs[0].index == s.node.logs[0].index
    && forall i :: 0 <= i < |s.node.logs| && s.node.logs[0].index + i <= s.node.commitIndex ==>
         SameAt(s.node.logs, s'.node.logs, i)
  }

  ghost predicate SameAt(log: seq<LogEntry>, log': seq<LogEntry>, i: nat) {
    i < |log| && i < |log'| && log[i] == log'[i]
  }

  // No event of the history costs the full log a committed entry.
  ghost predicate NothingLost(f: Site, es: seq<Event>)
    decreases |es|
  {
    es != [] && Allowed(f, es[0]) ==>
      Survives(f, HandleFull(f, es[0]).0) && NothingLost(HandleFull(f, es[0]).0, es[1..])
  }

  ghost function Final(f: Site, es: seq<Event>): Site
    decreases |es|
  {
    if es == [] || !Allowed(f, es[0]) then f else Final(HandleFull(f, es[0]).0, es[1..])
  }

  // The log of s from index `from` through index `upto`.
  ghost function Entries(s: Site, from: int, upto: int): seq<LogEntry>
    requires |s.node.logs| > 0 && s.node.logs[0].index < from <= upto + 1 <= s.node.logs[0].index + |s.node.logs|
  {
    s.node.logs[from - s.node.logs[0].index..upto + 1 - s.node.logs[0].index]
  }

  lemma CommitGrows(s: Site, e: Event)
    requires Allowed(s, e)
    ensures HandleFull(s, e).0.node.commitIndex >= s.node.commitIndex
  {
    hide Merge, FirstNew, ConflictScan, MajorityIndex, BackUp, Contiguous, Follows;
  }

  lemma {:induction false} SurvivesAll(f: Site, es: seq<Event>)
    requires NothingLost(f, es) && |f.node.logs| > 0
    ensures Survives(f, Final(f, es)) && Final(f, es).node.commitIndex >= f.node.commitIndex
    decreases |es|
  {
    if es != [] && Allowed(f, es[0]) {
      CommitGrows(f, es[0]);
      hide HandleFull, Allowed;
      SurvivesAll(HandleFull(f, es[0]).0, es[1..]);
      SurvivesTrans(f, HandleFull(f, es[0]).0, Final(f, es));
    }
  }

  lemma SurvivesTrans(a: Site, b: Site, c: Site)
    requires Survives(a, b) && Survives(b, c) && a.node.commitIndex <= b.node.commitIndex
    ensures Survives(a, c)
  {
    forall i | 0 <= i < |a.node.logs| && a.node.logs[0].index + i <= a.node.commitIndex
      ensures SameAt(a.node.logs, c.node.logs, i)
    {
      assert SameAt(a.node.logs, b.node.logs, i) && SameAt(b.node.logs, c.node.logs, i);
    }
  }

  lemma StaysInLog(f: Site, f': Site)
    requires InLog(f) && Survives(f, f') && Delivered(f') == Delivered(f) <= f.node.commitIndex
    ensures InLog(f')
  {
    var j := Delivered(f) - f.node.logs[0].index;
    assert SameAt(f.node.logs, f'.node.logs, j);
  }

  lemma FullStep(f: Site, es: seq<Event>)
    requires es != [] && Allowed(f, es[0])
    ensures var (f', answer) := HandleFull(f, es[0]);
      && Batches(AnswersFull(f, es)) == Part(answer) + Batches(AnswersFull(f', es[1..]))
      && Delivered(f') == Delivered(f) + |Part(answer)|
      && (es[0].Take? ==> Delivered(f') == f.node.commitIndex <= LastLog(f.node).index && f'.node == f.node)
      && (es[0].Take? ==> FirstLog(f.node).index <= Delivered(f) && Part(answer) == ApplyBatch(f.node))
      && (!es[0].Take? ==> Part(answer) == [])
  {
    hide HandleFull, AnswersFull, Batches, Allowed, ApplyBatch;
    FullAnswers(f, es);
    FullEffect(f, es[0]);
  }

  lemma FullAnswers(f: Site, es: seq<Event>)
    requires es != [] && Allowed(f, es[0])
    ensures var (f', answer) := HandleFull(f, es[0]);
      Batches(AnswersFull(f, es)) == Part(answer) + Batches(AnswersFull(f', es[1..]))
  {
    hide HandleFull, Allowed;
    var (f', answer) := HandleFull(f, es[0]);
    assert AnswersFull(f, es)[1..] == AnswersFull(f', es[1..]);
  }

  lemma FullEffect(f: Site, e: Event)
    requires Allowed(f, e)
    ensures var (f', answer) := HandleFull(f, e);
      && Delivered(f') == Delivered(f) + |Part(answer)|
      && (e.Take? ==> Delivered(f') == f.node.commitIndex <= LastLog(f.node).index && f'.node == f.node)
      && (e.Take? ==> FirstLog(f.node).index <= Delivered(f) && Part(answer) == ApplyBatch(f.node))
      && (!e.Take? ==> Part(answer) == [])
  {
    hide ElectionTimeout, RequestVote, VoteReply, AppendEntries, AppendReply, Start, Contiguous, Follows;
    DeliveredStep(f, e);
  }

  ghost predicate InLog(s: Site) {
    |s.node.logs| > 0 && s.node.logs[0].index <= Delivered(s) < s.node.logs[0].index + |s.node.logs|
  }

  // Entries that survive are the same entries.
  lemma SameEntries(s: Site, g: Site, from: int, upto: int)
    requires Survives(s, g) && s.node.logs[0].index < from <= upto + 1 && upto <= s.node.commitIndex
    requires upto < s.node.logs[0].index + |s.node.logs|
    ensures upto < g.node.logs[0].index + |g.node.logs| && Entries(s, from, upto) == Entries(g, from, upto)
  {
    var j := upto - s.node.logs[0].index;
    assert SameAt(s.node.logs, g.node.logs, j);
    forall i | from - s.node.logs[0].index <= i <= j ensures g.node.logs[i] == s.node.logs[i] {
      assert SameAt(s.node.logs, g.node.logs, i);
    }
  }

  lemma WfFull(f: Site, e: Event)
    requires Allowed(f, e)
    ensures Wf(HandleFull(f, e).0)
  {
    hide Handle;
    WfKept(f, e);
  }

  lemma SliceJoin(log: seq<LogEntry>, a: nat, b: nat, c: nat)
    requires a <= b <= c <= |log|
    ensures log[a..b] + log[b..c] == log[a..c]
  {
  }

  // What a Take adds to what the rest of the history delivers.
  lemma TakePart(f: Site, f': Site, g: Site)
    requires InLog(f) && InLog(g) && f'.node == f.node && Survives(f', g) && Delivered(f') <= Delivered(g)
    requires Contiguous(f.node.logs) && Delivered(f) == f.node.lastApplied <= Delivered(f') == f.node.commitIndex
    requires f.node.commitIndex <= LastLog(f.node).index
    ensures ApplyBatch(f.node) + Entries(g, Delivered(f') + 1, Delivered(g)) ==
      Entries(g, Delivered(f) + 1, Delivered(g))
  {
    var first := f.node.logs[0].index;
    SameEntries(f', g, Delivered(f) + 1, Delivered(f'));
    SliceJoin(g.node.logs, Delivered(f) + 1 - first, Delivered(f') + 1 - first, Delivered(g) + 1 - first);
  }

  // After one event what is delivered is still in the log.
  lemma StillInLog(f: Site, es: seq<Event>)
    requires es != [] && Allowed(f, es[0]) && InLog(f) && Survives(f, HandleFull(f, es[0]).0)
    ensures var f' := HandleFull(f, es[0]).0; Wf(f') && InLog(f') && Delivered(f) <= Delivered(f')
  {
    FullEffect(f, es[0]);
    WfFull(f, es[0]);
    DeliveredCommitted(f);
    TakeFrom(f, es[0]);
    hide HandleFull, Wf, Guard, AnswersFull, Batches, Answers, ApplyBatch;
    LastPosition(f.node.logs);
    hide Contiguous;
    if !es[0].Take? { StaysInLog(f, HandleFull(f, es[0]).0); }
  }

  // What the first event adds to what the others deliver.
  lemma FirstPart(f: Site, es: seq<Event>, g: Site)
    requires es != [] && Allowed(f, es[0]) && InLog(f) && InLog(g)
    requires var f' := HandleFull(f, es[0]).0; Survives(f', g) && Delivered(f) <= Delivered(f') <= Delivered(g)
    requires g.node.logs[0].index == f.node.logs[0].index
    ensures var (f', answer) := HandleFull(f, es[0]);
      Part(answer) + Entries(g, Delivered(f') + 1, Delivered(g)) == Entries(g, Delivered(f) + 1, Delivered(g))
  {
    hide HandleFull, Allowed, ApplyBatch, Contiguous, Survives, Entries;
    FullEffect(f, es[0]);
    TakeFrom(f, es[0]);
    if es[0].Take? { TakePart(f, HandleFull(f, es[0]).0, g); }
  }

  // The full log delivers itself, from where it stood on.
  lemma {:induction false} FullDelivers(f: Site, es: seq<Event>)
    requires InLog(f) && NothingLost(f, es) && Wf(f)
    ensures var g := Final(f, es);
      && InLog(g) && g.node.logs[0].index == f.node.logs[0].index && Delivered(f) <= Delivered(g)
      && Batches(AnswersFull(f, es)) == Entries(g, Delivered(f) + 1, Delivered(g))
    decreases |es|
  {
    hide HandleFull, Allowed, Wf, AnswersFull, Batches, Entries, SameAt;
    if es != [] && Allowed(f, es[0]) {
      var f' := HandleFull(f, es[0]).0;
      StillInLog(f, es);
      FullDelivers(f', es[1..]);
      SurvivesAll(f', es[1..]);
      hide Survives;
      FirstPart(f, es, Final(f', es[1..]));
      FullStep(f, es);
    } else {
      NoneDelivered(f, es);
    }
  }

  lemma NoneDelivered(f: Site, es: seq<Event>)
    requires InLog(f) && (es == [] || !Allowed(f, es[0]))
    ensures Batches(AnswersFull(f, es)) == [] == Entries(f, Delivered(f) + 1, Delivered(f))
  {
  }

  lemma TakeFrom(f: Site, e: Event)
    requires Allowed(f, e)
    ensures Contiguous(f.node.logs) && (e.Take? ==> Delivered(f) == f.node.lastApplied)
  {
  }

  lemma DeliveredCommitted(f: Site)
    requires Wf(f)
    ensures Delivered(f) <= f.node.commitIndex
  {
  }

  // In-order apply with snapshots: as long as no committed entry is lost, what a server that
  // takes snapshots hands to its state machine is the full log after its starting index.
  lemma SnapshotsDeliverTheLog(c: Site, f: Site, es: seq<Event>)
    requires Refines(c, f) && Wf(c) && Guarded(c, es) && InLog(f) && NothingLost(f, es)
    ensures var g := Final(f, es);
      && InLog(g) && g.node.logs[0].index == f.node.logs[0].index && Delivered(c) <= Delivered(g)
      && Batches(Answers(c, es)) == Entries(g, Delivered(c) + 1, Delivered(g))
  {
    hide Wf, Guard, Guarded, NothingLost, InLog, Entries, Answers, AnswersFull, Final, Batches, Allowed;
    CompactionRefines(c, f, es);
    RefinesFull(c, f);
    hide Refines;
    FullDelivers(f, es);
  }

  lemma RefinesFull(c: Site, f: Site)
    requires Refines(c, f) && Wf(c)
    ensures Wf(f) && Delivered(c) == Delivered(f)
  {
    AllowedFull(c, f, Tick);
    hide Cut, Contiguous;
  }
}
