/**
  What every step of the cluster keeps.  The invariant comes in five layers, each
  proved from the ones before it: the peers taken alone, the elections, the logs, what
  a voter knows about the entries it once held, and what may be committed.
 */
module RaftInvariant {
  import opened RaftNode
  import opened RaftProtocol
  import opened Quorum

  type Leaders = map<int, Leadership>

  // ---------------------------------------------------------- logs in isolation

  // Snapshot-free: the dummy first, then entries 1, 2, 3, ... of non-decreasing terms.
  ghost predicate Shape(log: seq<LogEntry>) {
    && |log| > 0
    && log[0] == Dummy
    && (forall i :: 0 <= i < |log| ==> log[i].index == i)
    && (forall i :: 1 <= i < |log| ==> log[i].term >= 1)
    && (forall i, j :: 0 <= i <= j < |log| ==> log[i].term <= log[j].term)
  }

  lemma ShapeContiguous(log: seq<LogEntry>)
    requires Shape(log)
    ensures Contiguous(log) && log[0].index == 0
  {
  }

  ghost predicate TermsUpTo(log: seq<LogEntry>, term: int) {
    forall i :: 0 <= i < |log| ==> log[i].term <= term
  }

  // a and b share their first m entries.
  ghost predicate Agree(a: seq<LogEntry>, b: seq<LogEntry>, m: int) {
    m <= |a| && m <= |b| && forall k :: 0 <= k < m ==> a[k] == b[k]
  }

  predicate Has(log: seq<LogEntry>, term: int, i: int) {
    0 <= i < |log| && log[i].term == term
  }

  // ------------------------------------------------------- layer 1: one peer

  ghost predicate Local(n: Node, p: nat, size: nat) {
    && n.me == p
    && n.currentTerm >= 0
    && n.votedFor >= -1
    && Shape(n.logs)
    && TermsUpTo(n.logs, n.currentTerm)
    && |n.nextIndex| == |n.matchIndex| == size
    && (forall q :: 0 <= q < size ==> n.nextIndex[q] >= 1)
  }

  // Memory and disk agree whenever the lock is free.
  ghost predicate InvLocal(w: World) {
    forall p: nat :: p < |w.peers| ==>
      Local(w.peers[p].node, p, |w.peers|) && w.peers[p].disk == DurableOf(w.peers[p].node)
  }

  // ------------------------------------------------------ layer 2: elections

  ghost predicate Votes(bound: map<Seat, int>, voters: set<nat>, term: int, cand: nat, size: nat) {
    forall v: nat :: v in voters ==> v < size && Seat(v, term) in bound && bound[Seat(v, term)] == cand
  }

  ghost predicate InvBound(w: World) {
    && (forall s :: s in w.hist.bound ==>
          && w.hist.bound[s] != -1 && s.peer < |w.peers| && s.term <= w.peers[s.peer].node.currentTerm
          && (s.term == w.peers[s.peer].node.currentTerm ==> w.peers[s.peer].node.votedFor == w.hist.bound[s]))
    && (forall p: nat :: p < |w.peers| && w.peers[p].node.votedFor != -1 ==>
      Seat(p, w.peers[p].node.currentTerm) in w.hist.bound)
  }

  ghost predicate InvBallots(w: World) {
    forall e :: e in w.hist.ballots ==>
      && e.cand < |w.peers| && e.term <= w.peers[e.cand].node.currentTerm
      && e.cand in w.hist.ballots[e].counted
      && Votes(w.hist.bound, w.hist.ballots[e].counted, e.term, e.cand, |w.peers|)
  }

  ghost predicate CallOk(w: World, key: VoteKey, call: VoteCall) {
    && key.peer < |w.peers| && key.peer != key.cand
    && Election(key.cand, key.term) in w.hist.ballots
    && var b := w.hist.ballots[Election(key.cand, key.term)];
    && key.peer !in b.counted
    && |b.log| > 0
    && call.args == RequestVoteArgs(key.term, key.cand, b.log[|b.log| - 1].index, b.log[|b.log| - 1].term)
    && (call.Answered? && call.reply.voteGranted ==>
          Seat(key.peer, key.term) in w.hist.bound && w.hist.bound[Seat(key.peer, key.term)] == key.cand)
  }

  ghost predicate InvCalls(w: World) {
    forall key :: key in w.votes ==> CallOk(w, key, w.votes[key])
  }

  ghost predicate InvLeaders(w: World) {
    forall t :: t in w.hist.leaders ==>
      && var l := w.hist.leaders[t];
      && l.id < |w.peers| && t >= 1
      && Election(l.id, t) in w.hist.ballots
      && Majority(l.electors, |w.peers|)
      && Votes(w.hist.bound, l.electors, t, l.id, |w.peers|)
  }

  ghost predicate InvRoles(w: World) {
    forall p: nat :: p < |w.peers| ==>
      && var n := w.peers[p].node;
      && var e := Election(p, n.currentTerm);
      && (n.state == Candidate ==>
            && e in w.hist.ballots
            && n.grantedVotes == |w.hist.ballots[e].counted|
            && n.logs == w.hist.ballots[e].log
            && !(n.currentTerm in w.hist.leaders && w.hist.leaders[n.currentTerm].id == p))
      && (n.state == Leader ==>
            && n.currentTerm in w.hist.leaders
            && w.hist.leaders[n.currentTerm].id == p
            && w.hist.leaders[n.currentTerm].log == n.logs)
  }

  ghost predicate InvElection(w: World) {
    InvBound(w) && InvBallots(w) && InvCalls(w) && InvLeaders(w) && InvRoles(w)
  }

  // ------------------------------------------------------------ layer 3: logs

  // Up to each of its entries, the log is the log of the leader of that entry's term.
  ghost predicate Grown(ls: Leaders, log: seq<LogEntry>) {
    forall i :: 1 <= i < |log| ==>
      log[i].term in ls && Agree(log, ls[log[i].term].log, i + 1)
  }

  ghost predicate GoodLog(ls: Leaders, log: seq<LogEntry>, term: int) {
    Shape(log) && TermsUpTo(log, term) && Grown(ls, log)
  }

  // The message is a piece of its leader's log.
  ghost predicate Piece(ls: Leaders, a: AppendEntriesArgs) {
    && a.term in ls && ls[a.term].id == a.leaderId
    && var log := ls[a.term].log;
    && 0 <= a.prevLogIndex && a.prevLogIndex + |a.entries| < |log|
    && log[a.prevLogIndex].term == a.prevLogTerm
    && forall k :: 0 <= k < |a.entries| ==> a.entries[k] == log[a.prevLogIndex + 1 + k]
  }

  ghost predicate MsgOk(w: World, m: AppendMsg) {
    m.to < |w.peers| && m.to != m.args.leaderId && Piece(w.hist.leaders, m.args)
  }

  // The reply to a piece cannot send nextIndex below 1.
  ghost predicate AckOk(w: World, a: AppendAck) {
    && MsgOk(w, a.msg)
    && (!a.reply.success && a.reply.term == a.msg.args.term ==>
          a.reply.conflictIndex >= 1 && (a.reply.conflictTerm == -1 || a.reply.conflictTerm >= 1))
  }

  ghost predicate InvLogs(w: World) {
    && (forall p: nat :: p < |w.peers| ==> Grown(w.hist.leaders, w.peers[p].node.logs))
    && (forall t :: t in w.hist.leaders ==> GoodLog(w.hist.leaders, w.hist.leaders[t].log, t))
    && (forall e :: e in w.hist.ballots ==> GoodLog(w.hist.leaders, w.hist.ballots[e].log, e.term - 1))
    && (forall m :: m in w.appends ==> MsgOk(w, m))
    && (forall a :: a in w.acks ==> AckOk(w, a))
  }

  // --------------------------------------------- layer 4: what voters vouch for

  // The leader of term u never had the entry that (term, i) names.
  ghost predicate Lacks(ls: Leaders, u: int, term: int, i: int) {
    u in ls && !Has(ls[u].log, term, i)
  }

  ghost predicate LackedBelow(ls: Leaders, term: int, i: int, bound: int) {
    exists u :: term < u < bound && Lacks(ls, u, term, i)
  }

  // Still there, or overwritten on the word of a leader that lacked it.
  ghost predicate Kept(ls: Leaders, log: seq<LogEntry>, term: int, i: int, bound: int) {
    Has(log, term, i) || LackedBelow(ls, term, i, bound)
  }

  ghost predicate InvHeld(w: World) {
    && (forall x :: x in w.hist.held ==>
          && x.peer < |w.peers| && 1 <= x.term <= w.peers[x.peer].node.currentTerm && 1 <= x.index
          && x.term in w.hist.leaders && Has(w.hist.leaders[x.term].log, x.term, x.index)
          && Kept(w.hist.leaders, w.peers[x.peer].node.logs, x.term, x.index, w.peers[x.peer].node.currentTerm + 1))
    && (forall p: nat :: p < |w.peers| ==> Holdings(p, w.peers[p].node) <= w.hist.held)
  }

  // Whatever v held before `term` is in the candidate's log, unless a leader in between lacked it.
  ghost predicate Vouches(ls: Leaders, held: set<Holding>, v: nat, term: int, log: seq<LogEntry>) {
    forall x :: x in held && x.peer == v && x.term < term ==> Kept(ls, log, x.term, x.index, term)
  }

  ghost predicate InvVouched(w: World) {
    && (forall key :: key in w.votes && w.votes[key].Answered? && w.votes[key].reply.voteGranted
                      && key.term !in w.hist.leaders && Election(key.cand, key.term) in w.hist.ballots ==>
          Vouches(w.hist.leaders, w.hist.held, key.peer, key.term, w.hist.ballots[Election(key.cand, key.term)].log))
    && (forall e :: e in w.hist.ballots && e.term !in w.hist.leaders ==>
          forall v: nat :: v in w.hist.ballots[e].counted ==>
            Vouches(w.hist.leaders, w.hist.held, v, e.term, w.hist.ballots[e].log))
    && (forall t :: t in w.hist.leaders ==>
          forall v: nat :: v in w.hist.leaders[t].electors ==>
            Vouches(w.hist.leaders, w.hist.held, v, t, w.hist.leaders[t].log))
  }

  // The layers that hold of the source as written.
  ghost predicate Inv(w: World) {
    InvLocal(w) && InvElection(w) && InvLogs(w) && InvHeld(w) && InvVouched(w)
  }

  // ------------------------------------------------------------ log agreement

  // Two grown logs with the same term at i are the same up to i.
  lemma SameTermSamePrefix(ls: Leaders, a: seq<LogEntry>, b: seq<LogEntry>, i: nat)
    requires Shape(a) && Shape(b) && Grown(ls, a) && Grown(ls, b)
    requires i < |a| && i < |b| && a[i].term == b[i].term
    ensures Agree(a, b, i + 1)
  {
  }

  // Leadership logs only grow, by entries of their own term.
  ghost predicate LongerLog(old_: Leadership, new_: Leadership, t: int) {
    && new_.id == old_.id && new_.electors == old_.electors
    && Agree(old_.log, new_.log, |old_.log|)
    && forall i :: |old_.log| <= i < |new_.log| ==> new_.log[i].term == t
  }

  ghost predicate Later(ls: Leaders, ls': Leaders) {
    forall t :: t in ls ==> t in ls' && LongerLog(ls[t], ls'[t], t)
  }

  lemma GrownLater(ls: Leaders, ls': Leaders, log: seq<LogEntry>)
    requires Later(ls, ls') && Grown(ls, log)
    ensures Grown(ls', log)
  {
  }

  lemma KeptLater(ls: Leaders, ls': Leaders, log: seq<LogEntry>, term: int, i: int, bound: int)
    requires Later(ls, ls') && Kept(ls, log, term, i, bound)
    ensures Kept(ls', log, term, i, bound)
  {
    if !Has(log, term, i) {
      var u :| term < u < bound && Lacks(ls, u, term, i);
      assert LongerLog(ls[u], ls'[u], u);
      assert Lacks(ls', u, term, i);
    }
  }

  lemma LaterTrans(a: Leaders, b: Leaders, c: Leaders)
    requires Later(a, b) && Later(b, c)
    ensures Later(a, c)
  {
    forall t | t in a ensures t in c && LongerLog(a[t], c[t], t) {
      assert LongerLog(a[t], b[t], t) && LongerLog(b[t], c[t], t);
    }
  }
}
