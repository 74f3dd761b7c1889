/**
  The cluster: n peers, the RPCs in flight, crashes, and every step the peers take.

  Each locked region is one step.  A RequestVote call is delivered at most once and its
  reply processed at most once, because candidates count replies.  AppendEntries
  requests and replies are kept for ever, so that they can be lost, delayed, reordered
  and even repeated.  A crash restarts a peer from its last durable write; it can come
  between steps or, `Torn`, after any of the writes inside a locked region, before the
  region answers anyone.

  Any server can time out, also a leader.  The source stops a leader's election timer, but a
  timer that has already fired can still be waiting for the lock, so this allows somewhat more
  runs than there are.

  `History` only records: no step depends on it.
 */
module RaftProtocol {
  import opened RaftNode

  // reset == false is the source; reset == true is what its field comment promises.
  datatype Config = Config(n: nat, reset: bool)

  datatype VoteKey = VoteKey(cand: nat, term: int, peer: nat)

  datatype VoteCall = Asked(args: RequestVoteArgs) | Answered(args: RequestVoteArgs, reply: RequestVoteReply)

  datatype AppendMsg = AppendMsg(to: nat, args: AppendEntriesArgs)

  datatype AppendAck = AppendAck(msg: AppendMsg, reply: AppendEntriesReply)

  // The applier goroutine: what it still has to send of its batch, where the batch
  // ends, and everything this incarnation has sent on applyCh.
  datatype Applier = Applier(busy: bool, batch: seq<LogEntry>, upto: int, delivered: seq<LogEntry>)

  datatype Peer = Peer(node: Node, disk: Durable, applier: Applier)

  // An election: the candidate's log and the voters counted so far.
  datatype Ballot = Ballot(log: seq<LogEntry>, counted: set<nat>)

  // A leadership: who, elected by whom, and the leader's log so far.
  datatype Leadership = Leadership(id: nat, electors: set<nat>, log: seq<LogEntry>)

  datatype Election = Election(cand: nat, term: int)
  datatype Seat = Seat(peer: nat, term: int)
  datatype Holding = Holding(peer: nat, term: int, index: int)

  datatype History = History(
    bound: map<Seat, int>,             // the vote a peer has, or is tied to, in a term
    ballots: map<Election, Ballot>,
    leaders: map<int, Leadership>,
    held: set<Holding>)                // peer, while in term, held an entry of that term at index

  datatype World = World(
    peers: seq<Peer>,
    votes: map<VoteKey, VoteCall>,
    appends: set<AppendMsg>,
    acks: set<AppendAck>,
    hist: History)

  datatype Action =
    | Timeout(p: nat)
    | AskVote(key: VoteKey)
    | TellVote(key: VoteKey)
    | DropVote(key: VoteKey)
    | SendAppend(p: nat, to: nat)
    | RecvAppend(msg: AppendMsg)
    | RecvAck(ack: AppendAck)
    | Submit(p: nat, command: Command)
    | Take(p: nat)
    | Deliver(p: nat)
    | Finish(p: nat)
    | Crash(p: nat)
    | Torn(inside: Action, writes: nat)

  const Idle := Applier(false, [], 0, [])

  function Boot(d: Durable, me: nat, n: nat): Peer
    requires |d.logs| > 0
  {
    Peer(Restart(d, me, n), d, Idle)
  }

  function Init(cfg: Config): World {
    World(seq(cfg.n, i requires 0 <= i => Boot(Blank, i, cfg.n)), map[], {}, {}, History(map[], map[], map[], {}))
  }

  // ------------------------------------------------------------ bookkeeping

  function Holdings(p: nat, n: Node): set<Holding> {
    set i | 1 <= i < |n.logs| && n.logs[i].term == n.currentTerm :: Holding(p, n.currentTerm, i)
  }

  function Note(h: History, p: nat, n: Node): History {
    h.(bound := if n.votedFor == -1 then h.bound else h.bound[Seat(p, n.currentTerm) := n.votedFor],
       held := h.held + Holdings(p, n))
  }

  function LastOr(writes: seq<Durable>, d: Durable): Durable {
    if writes == [] then d else writes[|writes| - 1]
  }

  // Peer p's memory becomes n, after the given durable writes.
  function Put(w: World, p: nat, n: Node, writes: seq<Durable>): World
    requires p < |w.peers|
  {
    w.(peers := w.peers[p := w.peers[p].(node := n, disk := LastOr(writes, w.peers[p].disk))],
       hist := Note(w.hist, p, n))
  }

  function PutApplier(w: World, p: nat, n: Node, a: Applier): World
    requires p < |w.peers|
  {
    w.(peers := w.peers[p := w.peers[p].(node := n, applier := a)])
  }

  function Reboot(w: World, p: nat): World
    requires p < |w.peers| && |w.peers[p].disk.logs| > 0
  {
    w.(peers := w.peers[p := Boot(w.peers[p].disk, p, |w.peers|)])
  }

  // ------------------------------------------------------------------ steps

  ghost predicate PeerOk(w: World, p: nat) {
    && p < |w.peers|
    && var n := w.peers[p].node;
    && Contiguous(n.logs)
    && |w.peers[p].disk.logs| > 0
    && n.me == p
    && |n.nextIndex| == |n.matchIndex| == |w.peers|
    && n.logs[0].index <= n.commitIndex
  }

  // When a step other than Torn can be taken.  PeerOk holds in every run for every peer.
  // Where a bound on an index fails, the source indexes out of range and its process dies:
  // that is a Crash.  What is left is the source's own guards.
  ghost predicate Ready(w: World, a: Action) {
    match a
    case Timeout(p) => PeerOk(w, p)
    case AskVote(key) => PeerOk(w, key.peer) && key in w.votes && w.votes[key].Asked?
    case TellVote(key) => PeerOk(w, key.cand) && key in w.votes && w.votes[key].Answered?
    case DropVote(key) => key in w.votes
    case SendAppend(p, to) =>
      && PeerOk(w, p) && to < |w.peers| && to != p
      && var n := w.peers[p].node;
      && n.state == Leader
      && n.logs[0].index <= n.nextIndex[to] - 1 <= LastLog(n).index
    case RecvAppend(msg) => PeerOk(w, msg.to) && msg in w.appends
    case RecvAck(ack) =>
      && PeerOk(w, ack.msg.args.leaderId) && ack.msg.to < |w.peers| && ack in w.acks
      && var n := w.peers[ack.msg.args.leaderId].node;
      && (ack.msg.args.term == n.currentTerm && n.state == Leader ==> ack.msg.args.prevLogIndex - 1 <= LastLog(n).index)
    case Submit(p, _) => PeerOk(w, p)
    case Take(p) =>
      && PeerOk(w, p)
      && var n := w.peers[p].node;
      && n.logs[0].index <= n.lastApplied <= n.commitIndex <= LastLog(n).index
      && !w.peers[p].applier.busy && n.lastApplied < n.commitIndex
    case Deliver(p) => PeerOk(w, p) && w.peers[p].applier.busy && w.peers[p].applier.batch != []
    case Finish(p) => PeerOk(w, p) && w.peers[p].applier.busy && w.peers[p].applier.batch == []
    case Crash(p) => PeerOk(w, p)
    case Torn(_, _) => false
  }

  // The steps that write.
  predicate Durably(a: Action) {
    a.Timeout? || a.AskVote? || a.TellVote? || a.RecvAppend? || a.RecvAck? || a.Submit?
  }

  ghost predicate Enabled(w: World, a: Action) {
    if a.Torn? then
      && Durably(a.inside) && Ready(w, a.inside)
      && 0 < a.writes <= |Writes(w, a.inside)|
      && |Writes(w, a.inside)[a.writes - 1].logs| > 0
    else Ready(w, a)
  }

  // Who takes the step.
  function Actor(a: Action): nat {
    match a
    case Timeout(p) => p
    case AskVote(key) => key.peer
    case TellVote(key) => key.cand
    case DropVote(key) => key.cand
    case SendAppend(p, _) => p
    case RecvAppend(msg) => msg.to
    case RecvAck(ack) => ack.msg.args.leaderId
    case Submit(p, _) => p
    case Take(p) => p
    case Deliver(p) => p
    case Finish(p) => p
    case Crash(p) => p
    case Torn(inside, _) => Actor(inside)
  }

  ghost function Writes(w: World, a: Action): seq<Durable>
    requires Durably(a) && Ready(w, a)
  {
    var n := w.peers[Actor(a)].node;
    match a
    case Timeout(_) => ElectionTimeout(n).writes
    case AskVote(key) => RequestVote(n, w.votes[key].args).writes
    case TellVote(key) => VoteReply(n, w.votes[key].args, w.votes[key].reply, false).writes
    case RecvAppend(msg) => AppendEntries(n, msg.args).writes
    case RecvAck(ack) => AppendReply(n, ack.msg.to, ack.msg.args, ack.reply).writes
    case Submit(_, command) => Start(n, command).writes
  }

  // The calls one candidate makes, one per other peer.
  ghost function Calls(n: nat, args: RequestVoteArgs): map<VoteKey, VoteCall> {
    map q: nat | 0 <= q < n && q != args.candidateId :: VoteKey(args.candidateId, args.term, q) := Asked(args)
  }

  ghost function StepTimeout(w: World, p: nat): World
    requires Enabled(w, Timeout(p))
  {
    var n := w.peers[p].node;
    var o := ElectionTimeout(n);
    var w1 := Put(w, p, o.node, o.writes);
    w1.(votes := w1.votes + Calls(|w.peers|, o.reply),
        hist := w1.hist.(ballots := w1.hist.ballots[Election(p, o.node.currentTerm) := Ballot(n.logs, {p})]))
  }

  ghost function StepAskVote(w: World, key: VoteKey): World
    requires Enabled(w, AskVote(key))
  {
    var args := w.votes[key].args;
    var o := RequestVote(w.peers[key.peer].node, args);
    Put(w, key.peer, o.node, o.writes).(votes := w.votes[key := Answered(args, o.reply)])
  }

  ghost function StepSend(w: World, p: nat, to: nat): World
    requires Enabled(w, SendAppend(p, to))
  {
    var n := w.peers[p].node;
    w.(appends := w.appends + {AppendMsg(to, GenAppendEntriesArgs(n, n.nextIndex[to] - 1))})
  }

  ghost function StepTellVote(cfg: Config, w: World, key: VoteKey): World
    requires Enabled(w, TellVote(key))
  {
    var n := w.peers[key.cand].node;
    var call := w.votes[key];
    var o := VoteReply(n, call.args, call.reply, cfg.reset);
    var w1 := Put(w, key.cand, o.node, o.writes).(votes := w.votes - {key});
    var e := Election(key.cand, key.term);
    if call.args.term == n.currentTerm && n.state == Candidate && call.reply.voteGranted && e in w.hist.ballots then
      var b := w.hist.ballots[e];
      var counted := b.counted + {key.peer};
      var h := w1.hist.(ballots := w1.hist.ballots[e := b.(counted := counted)]);
      if o.node.state == Leader
      then w1.(hist := h.(leaders := h.leaders[key.term := Leadership(key.cand, counted, n.logs)]))
      else w1.(hist := h)
    else w1
  }

  ghost function StepSubmit(w: World, p: nat, command: Command): World
    requires Enabled(w, Submit(p, command))
  {
    var n := w.peers[p].node;
    var o := Start(n, command);
    var w1 := Put(w, p, o.node, o.writes);
    if n.state == Leader && n.currentTerm in w.hist.leaders then
      var lead := w1.hist.leaders[n.currentTerm].(log := o.node.logs);
      w1.(hist := w1.hist.(leaders := w1.hist.leaders[n.currentTerm := lead]))
    else w1
  }

  // A step cut short by a crash after its first k writes.  Nobody hears from it; the
  // call it was serving fails.
  ghost function StepTorn(w: World, a: Action, k: nat): World
    requires Enabled(w, Torn(a, k))
  {
    var p := Actor(a);
    var d := Writes(w, a)[k - 1];
    var w1 := if a.AskVote? || a.TellVote? then w.(votes := w.votes - {a.key}) else w;
    var w2 := w1.(peers := w1.peers[p := Boot(d, p, |w.peers|)], hist := Note(w1.hist, p, Restart(d, p, |w.peers|)));
    if a.Submit? && w.peers[p].node.currentTerm in w.hist.leaders then
      var t := w.peers[p].node.currentTerm;
      w2.(hist := w2.hist.(leaders := w2.hist.leaders[t := w2.hist.leaders[t].(log := d.logs)]))
    else w2
  }

  ghost function Act(cfg: Config, w: World, a: Action): World
    requires Enabled(w, a)
  {
    match a
    case Timeout(p) => StepTimeout(w, p)
    case AskVote(key) => StepAskVote(w, key)
    case TellVote(key) => StepTellVote(cfg, w, key)
    case DropVote(key) => w.(votes := w.votes - {key})
    case SendAppend(p, to) => StepSend(w, p, to)
    case RecvAppend(msg) =>
      var o := AppendEntries(w.peers[msg.to].node, msg.args);
      Put(w, msg.to, o.node, o.writes).(acks := w.acks + {AppendAck(msg, o.reply)})
    case RecvAck(ack) =>
      var p := ack.msg.args.leaderId;
      var o := AppendReply(w.peers[p].node, ack.msg.to, ack.msg.args, ack.reply);
      Put(w, p, o.node, o.writes)
    case Submit(p, command) => StepSubmit(w, p, command)
    case Take(p) =>
      var n := w.peers[p].node;
      var d := w.peers[p].applier.delivered;
      PutApplier(w, p, n, Applier(true, ApplyBatch(n), n.commitIndex, d))
    case Deliver(p) =>
      var ap := w.peers[p].applier;
      PutApplier(w, p, w.peers[p].node, ap.(batch := ap.batch[1..], delivered := ap.delivered + [ap.batch[0]]))
    case Finish(p) =>
      var ap := w.peers[p].applier;
      PutApplier(w, p, Applied(w.peers[p].node, ap.upto), ap.(busy := false))
    case Crash(p) => Reboot(w, p)
    case Torn(inside, k) => StepTorn(w, inside, k)
  }

  // ------------------------------------------------------------------- runs

  ghost predicate IsRun(cfg: Config, ws: seq<World>, acts: seq<Action>) {
    && |ws| == |acts| + 1
    && ws[0] == Init(cfg)
    && forall k :: 0 <= k < |acts| ==> Enabled(ws[k], acts[k]) && ws[k + 1] == Act(cfg, ws[k], acts[k])
  }

  ghost predicate Leads(w: World, p: nat, term: int) {
    p < |w.peers| && w.peers[p].node.state == Leader && w.peers[p].node.currentTerm == term
  }

  // No matchIndex, but possibly p's own, lies beyond the log.
  ghost predicate NoneBeyond(n: Node, p: nat) {
    |n.logs| > 0 && forall q :: 0 <= q < |n.matchIndex| && q != p ==> n.matchIndex[q] <= LastLog(n).index
  }

  // The winner of an election starts with nothing beyond its log.
  ghost predicate FreshWin(w: World, w': World) {
    forall p: nat, term: int :: !Leads(w, p, term) && Leads(w', p, term) ==> NoneBeyond(w'.peers[p].node, p)
  }

  ghost predicate FreshWins(ws: seq<World>) {
    forall k :: 0 <= k < |ws| - 1 ==> FreshWin(ws[k], ws[k + 1])
  }

  // p, in w, and q, in w', have committed different entries at index k.
  ghost predicate Conflict(w: World, w': World, p: nat, q: nat, k: nat) {
    && p < |w.peers| && q < |w'.peers|
    && var x, y := w.peers[p].node, w'.peers[q].node;
    && k <= x.commitIndex && k <= y.commitIndex && k < |x.logs| && k < |y.logs| && x.logs[k] != y.logs[k]
  }
}
