/**
  One Raft peer as a value: the fields of the `Raft` struct, the RPC messages, and
  what each locked region of the source does to them.  A locked region is a function
  from the node before to an `Outcome`: the node after, the durable writes it made on
  the way (one per `persist()`, in order) and what it hands back.
 */
module RaftNode {
  import opened Sorting

  datatype Command = Nil | Command(payload: int)

  datatype LogEntry = LogEntry(command: Command, term: int, index: int)

  datatype NodeState = Follower | Candidate | Leader

  // What encodeState writes and readPersist reads back.
  datatype Durable = Durable(currentTerm: int, votedFor: int, logs: seq<LogEntry>)

  datatype Node = Node(
    me: nat,
    currentTerm: int,
    votedFor: int,
    logs: seq<LogEntry>,
    commitIndex: int,
    lastApplied: int,
    nextIndex: seq<int>,
    matchIndex: seq<int>,
    state: NodeState,
    grantedVotes: int)

  datatype RequestVoteArgs = RequestVoteArgs(term: int, candidateId: nat, lastLogIndex: int, lastLogTerm: int)
  datatype RequestVoteReply = RequestVoteReply(term: int, voteGranted: bool)

  datatype AppendEntriesArgs = AppendEntriesArgs(
    term: int, leaderId: nat, prevLogIndex: int, prevLogTerm: int, leaderCommit: int, entries: seq<LogEntry>)
  datatype AppendEntriesReply = AppendEntriesReply(term: int, success: bool, conflictIndex: int, conflictTerm: int)

  datatype Outcome<+R> = Outcome(node: Node, writes: seq<Durable>, reply: R)

  // Positions in the log are its Index fields minus the first one (getFirstLog).
  predicate Contiguous(logs: seq<LogEntry>) {
    && |logs| > 0
    && forall k :: 0 <= k < |logs| ==> logs[k].index == logs[0].index + k
  }

  // The entries of a message follow its prevLogIndex without a gap.
  predicate Follows(entries: seq<LogEntry>, prev: int) {
    forall k :: 0 <= k < |entries| ==> entries[k].index == prev + 1 + k
  }

  function Min(a: int, b: int): int { if a < b then a else b }

  function Max(a: int, b: int): int { if a > b then a else b }

  function FirstLog(n: Node): LogEntry
    requires |n.logs| > 0
  {
    n.logs[0]
  }

  function LastLog(n: Node): LogEntry
    requires |n.logs| > 0
  {
    n.logs[|n.logs| - 1]
  }

  function DurableOf(n: Node): Durable {
    Durable(n.currentTerm, n.votedFor, n.logs)
  }

  // ---------------------------------------------------------------- elections

  function IsLogUpToDate(n: Node, index: int, term: int): bool
    requires |n.logs| > 0
  {
    term > LastLog(n).term || (term == LastLog(n).term && index >= LastLog(n).index)
  }

  // Adopting a larger term: back to Follower with no vote in it.
  function StepDown(n: Node, term: int): Node {
    n.(state := Follower, currentTerm := term, votedFor := -1)
  }

  function GenRequestVoteArgs(n: Node): RequestVoteArgs
    requires |n.logs| > 0
  {
    RequestVoteArgs(n.currentTerm, n.me, LastLog(n).index, LastLog(n).term)
  }

  // The election branch of ticker followed by StartElection.  The first write still
  // carries the vote of the previous term.
  function ElectionTimeout(n: Node): Outcome<RequestVoteArgs>
    requires |n.logs| > 0
  {
    var bumped := n.(state := Candidate, currentTerm := n.currentTerm + 1);
    var standing := bumped.(votedFor := n.me, grantedVotes := 1);
    Outcome(standing, [DurableOf(bumped), DurableOf(standing)], GenRequestVoteArgs(standing))
  }

  function RequestVote(n: Node, a: RequestVoteArgs): Outcome<RequestVoteReply>
    requires |n.logs| > 0
  {
    if a.term < n.currentTerm || (a.term == n.currentTerm && n.votedFor != -1 && n.votedFor != a.candidateId) then
      Outcome(n, [], RequestVoteReply(n.currentTerm, false))
    else
      var seen := if a.term > n.currentTerm then StepDown(n, a.term) else n;
      var first := if a.term > n.currentTerm then [DurableOf(seen)] else [];
      if !IsLogUpToDate(seen, a.lastLogIndex, a.lastLogTerm) then
        Outcome(seen, first, RequestVoteReply(seen.currentTerm, false))
      else
        var voted := seen.(votedFor := a.candidateId);
        Outcome(voted, first + [DurableOf(voted)], RequestVoteReply(voted.currentTerm, true))
  }

  // What the field comment promises on a win.  The source does not do it; `reset`
  // chooses between the two.
  function OnWin(n: Node, reset: bool): Node
    requires |n.logs| > 0
  {
    var won := n.(state := Leader);
    if reset then
      won.(nextIndex := seq(|n.nextIndex|, _ => LastLog(n).index + 1), matchIndex := seq(|n.matchIndex|, _ => 0))
    else won
  }

  function VoteReply(n: Node, a: RequestVoteArgs, r: RequestVoteReply, reset: bool): Outcome<()>
    requires |n.logs| > 0
  {
    if a.term == n.currentTerm && n.state == Candidate then
      if r.voteGranted then
        var counted := n.(grantedVotes := n.grantedVotes + 1);
        if counted.grantedVotes > |n.matchIndex| / 2 then
          Outcome(OnWin(counted, reset), [], ())
        else
          Outcome(counted, [], ())
      else if r.term > n.currentTerm then
        var down := StepDown(n, r.term);
        Outcome(down, [DurableOf(down)], ())
      else Outcome(n, [], ())
    else Outcome(n, [], ())
  }

  // -------------------------------------------------------------- replication

  function IsLogMatched(n: Node, index: int, term: int): bool
    requires Contiguous(n.logs)
    requires index >= FirstLog(n).index
  {
    index <= LastLog(n).index && term == n.logs[index - FirstLog(n).index].term
  }

  function GenAppendEntriesArgs(n: Node, prev: int): AppendEntriesArgs
    requires Contiguous(n.logs)
    requires FirstLog(n).index <= prev <= LastLog(n).index
  {
    var first := FirstLog(n).index;
    AppendEntriesArgs(n.currentTerm, n.me, prev, n.logs[prev - first].term, n.commitIndex, n.logs[prev - first + 1..])
  }

  // entries[0] belongs at position `at`.  The first of the entries, from k on, that the
  // log does not already hold with the same term.
  function FirstNew(logs: seq<LogEntry>, at: nat, entries: seq<LogEntry>, k: nat): (r: nat)
    requires k <= |entries| && at + k <= |logs|
    ensures k <= r <= |entries| && at + r <= |logs|
    decreases |entries| - k
  {
    if k < |entries| && at + k < |logs| && logs[at + k].term == entries[k].term
    then FirstNew(logs, at, entries, k + 1)
    else k
  }

  lemma {:induction false} FirstNewIsFirst(logs: seq<LogEntry>, at: nat, entries: seq<LogEntry>, k: nat)
    requires k <= |entries| && at + k <= |logs|
    ensures var r := FirstNew(logs, at, entries, k);
      && (forall x :: k <= x < r ==> logs[at + x].term == entries[x].term)
      && (r < |entries| ==> at + r == |logs| || logs[at + r].term != entries[r].term)
    decreases |entries| - k
  {
    if k < |entries| && at + k < |logs| && logs[at + k].term == entries[k].term {
      FirstNewIsFirst(logs, at, entries, k + 1);
    }
  }

  // Keep what agrees; from the first difference on, the message replaces the log.
  function Merge(logs: seq<LogEntry>, at: nat, entries: seq<LogEntry>): (r: seq<LogEntry>)
    requires at <= |logs|
  {
    var k := FirstNew(logs, at, entries, 0);
    if k == |entries| then logs else logs[..at + k] + entries[k..]
  }

  lemma MergeIs(log: seq<LogEntry>, at: nat, entries: seq<LogEntry>)
    requires at <= |log|
    ensures var k := FirstNew(log, at, entries, 0);
      Merge(log, at, entries) == if k == |entries| then log else log[..at + k] + entries[k..]
  {
  }

  lemma LastPosition(logs: seq<LogEntry>)
    requires Contiguous(logs)
    ensures logs[|logs| - 1].index == logs[0].index + |logs| - 1
  {
  }

  lemma ContiguousReplace(logs: seq<LogEntry>, p: nat, tail: seq<LogEntry>)
    requires Contiguous(logs) && 1 <= p <= |logs| && Follows(tail, logs[0].index + p - 1)
    ensures Contiguous(logs[..p] + tail)
  {
  }

  lemma FollowsTail(entries: seq<LogEntry>, prev: int, x: nat)
    requires Follows(entries, prev) && x <= |entries|
    ensures Follows(entries[x..], prev + x)
  {
  }

  lemma MergeContiguous(logs: seq<LogEntry>, prev: int, entries: seq<LogEntry>)
    requires Contiguous(logs) && logs[0].index <= prev < logs[0].index + |logs| && Follows(entries, prev)
    ensures Contiguous(Merge(logs, prev - logs[0].index + 1, entries))
    ensures Merge(logs, prev - logs[0].index + 1, entries)[0] == logs[0]
  {
    var at := prev - logs[0].index + 1;
    var x := FirstNew(logs, at, entries, 0);
    FollowsTail(entries, prev, x);
    if x < |entries| { ContiguousReplace(logs, at + x, entries[x..]); }
    hide Contiguous, Follows;
  }

  // The scan for the first index of the conflicting term, from `index` down.
  function ConflictScan(n: Node, index: int, term: int): (r: int)
    requires Contiguous(n.logs)
    requires index <= LastLog(n).index
    decreases index - FirstLog(n).index
  {
    if index >= FirstLog(n).index && n.logs[index - FirstLog(n).index].term == term
    then ConflictScan(n, index - 1, term)
    else index
  }

  function Rejection(n: Node, a: AppendEntriesArgs): AppendEntriesReply
    requires Contiguous(n.logs)
  {
    if LastLog(n).index < a.prevLogIndex then
      AppendEntriesReply(n.currentTerm, false, LastLog(n).index + 1, -1)
    else
      AppendEntriesReply(n.currentTerm, false, ConflictScan(n, a.prevLogIndex, a.prevLogTerm) + 1, a.prevLogTerm)
  }

  // The part of AppendEntries after the consistency check.
  function Accept(n: Node, a: AppendEntriesArgs): Node
    requires Contiguous(n.logs)
    requires FirstLog(n).index <= a.prevLogIndex <= LastLog(n).index
  {
    var merged := n.(logs := Merge(n.logs, a.prevLogIndex - FirstLog(n).index + 1, a.entries));
    var newCommit := Min(a.leaderCommit, LastLog(merged).index);
    if newCommit > n.commitIndex then merged.(commitIndex := newCommit) else merged
  }

  function AppendEntries(n: Node, a: AppendEntriesArgs): Outcome<AppendEntriesReply>
    requires Contiguous(n.logs)
  {
    if a.term < n.currentTerm then
      Outcome(n, [], AppendEntriesReply(n.currentTerm, false, 0, 0))
    else
      var seen := if a.term > n.currentTerm then StepDown(n, a.term) else n.(state := Follower);
      var first := if a.term > n.currentTerm then [DurableOf(seen)] else [];
      if a.prevLogIndex < FirstLog(seen).index then
        Outcome(seen, first, AppendEntriesReply(seen.currentTerm, false, 0, 0))
      else if !IsLogMatched(seen, a.prevLogIndex, a.prevLogTerm) then
        Outcome(seen, first, Rejection(seen, a))
      else
        var done := Accept(seen, a);
        var second := if FirstNew(seen.logs, a.prevLogIndex - FirstLog(seen).index + 1, a.entries, 0) == |a.entries|
                      then [] else [DurableOf(done)];
        Outcome(done, first + second, AppendEntriesReply(done.currentTerm, true, 0, 0))
  }

  // ------------------------------------------------------- the leader's side

  predicate IntLess(a: int, b: int) { a < b }

  // sort.Ints
  function SortInts(s: seq<int>): (r: seq<int>)
    ensures multiset(r) == multiset(s) && |r| == |s|
  {
    Sort(IntLess, s)
  }

  // The largest index that, by matchIndex, a majority of the servers has reached.
  function MajorityIndex(matchIndex: seq<int>): int
    requires |matchIndex| > 0
  {
    var n := |matchIndex|;
    SortInts(matchIndex)[n - (n / 2 + 1)]
  }

  function AdvanceCommit(n: Node): Node
    requires Contiguous(n.logs)
    requires |n.matchIndex| > 0
    requires FirstLog(n).index <= n.commitIndex
  {
    var newCommit := MajorityIndex(n.matchIndex);
    if newCommit > n.commitIndex && IsLogMatched(n, newCommit, n.currentTerm)
    then n.(commitIndex := newCommit) else n
  }

  // The scan, from `index` down, for an entry of the term the follower reported.
  function BackUp(n: Node, index: int, term: int, otherwise: int): int
    requires Contiguous(n.logs)
    requires index <= LastLog(n).index
    decreases index - FirstLog(n).index
  {
    if index < FirstLog(n).index then otherwise
    else if n.logs[index - FirstLog(n).index].term == term then index
    else BackUp(n, index - 1, term, otherwise)
  }

  // The reply half of replicateOnceRound.
  function AppendReply(n: Node, peer: nat, a: AppendEntriesArgs, r: AppendEntriesReply): Outcome<()>
    requires Contiguous(n.logs)
    requires peer < |n.nextIndex| == |n.matchIndex|
    requires FirstLog(n).index <= n.commitIndex
    requires a.term == n.currentTerm && n.state == Leader ==> a.prevLogIndex - 1 <= LastLog(n).index
  {
    if a.term == n.currentTerm && n.state == Leader then
      if !r.success then
        if r.term > n.currentTerm then
          var down := StepDown(n, r.term);
          Outcome(down, [DurableOf(down)], ())
        else if r.term == n.currentTerm then
          var next := if r.conflictTerm != -1 then BackUp(n, a.prevLogIndex - 1, r.conflictTerm, r.conflictIndex)
                      else r.conflictIndex;
          Outcome(n.(nextIndex := n.nextIndex[peer := next]), [], ())
        else Outcome(n, [], ())
      else
        var matched := a.prevLogIndex + |a.entries|;
        Outcome(AdvanceCommit(n.(matchIndex := n.matchIndex[peer := matched],
                                 nextIndex := n.nextIndex[peer := matched + 1])), [], ())
    else Outcome(n, [], ())
  }

  // Start; the reply is (index, term, isLeader).
  function Start(n: Node, command: Command): Outcome<(int, int, bool)>
    requires |n.logs| > 0
    requires n.me < |n.nextIndex| == |n.matchIndex|
  {
    if n.state != Leader then Outcome(n, [], (-1, -1, false))
    else
      var index := LastLog(n).index + 1;
      var grown := n.(logs := n.logs + [LogEntry(command, n.currentTerm, index)]);
      Outcome(grown.(matchIndex := n.matchIndex[n.me := index], nextIndex := n.nextIndex[n.me := index + 1]),
              [DurableOf(grown)], (index, n.currentTerm, true))
  }

  // ------------------------------------------------- restart, apply, compaction

  const Dummy := LogEntry(Nil, 0, 0)

  // Persisted state of a server that was never started.
  const Blank := Durable(0, -1, [Dummy])

  // Make, after readPersist.
  function Restart(d: Durable, me: nat, peers: nat): Node
    requires |d.logs| > 0
  {
    var first, last := d.logs[0].index, d.logs[|d.logs| - 1].index;
    Node(me, d.currentTerm, d.votedFor, d.logs, first, first,
         seq(peers, _ => last + 1), seq(peers, _ => 0), Follower, 0)
  }

  // The batch the applier copies while it holds the lock.
  function ApplyBatch(n: Node): seq<LogEntry>
    requires Contiguous(n.logs)
    requires FirstLog(n).index <= n.lastApplied <= n.commitIndex <= LastLog(n).index
  {
    var first := FirstLog(n).index;
    n.logs[n.lastApplied - first + 1..n.commitIndex - first + 1]
  }

  function Applied(n: Node, upto: int): Node {
    n.(lastApplied := Max(n.lastApplied, upto))
  }

  // Snapshot: the log from `index` on, its first entry emptied of the command.
  function Compact(n: Node, index: int): Node
    requires Contiguous(n.logs)
  {
    if index <= FirstLog(n).index || index > LastLog(n).index then n
    else
      var rest := n.logs[index - FirstLog(n).index..];
      n.(logs := rest[0 := rest[0].(command := Nil)])
  }
}
