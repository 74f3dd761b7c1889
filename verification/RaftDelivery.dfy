/**
  A follower and one leader's messages: delivered in any order, any number of times, they
  only ever bring the follower's log closer to the leader's.
 */
module RaftDelivery {
  import opened RaftNode
  import opened RaftInvariant
  import opened RaftActions

  // Messages of the leader of this term, each a piece of its log.
  ghost predicate FromLeader(ls: Leaders, term: int, messages: seq<AppendEntriesArgs>) {
    && term in ls && GoodLog(ls, ls[term].log, term)
    && forall i :: 0 <= i < |messages| ==> messages[i].term == term && Piece(ls, messages[i])
  }

  ghost predicate Delivered(nodes: seq<Node>, messages: seq<AppendEntriesArgs>) {
    && |nodes| == |messages| + 1
    && forall i :: 0 <= i < |messages| ==>
         Contiguous(nodes[i].logs) ==> nodes[i + 1] == AppendEntries(nodes[i], messages[i]).node
  }

  ghost predicate FollowerOk(ls: Leaders, term: int, n: Node) {
    n.currentTerm <= term && GoodLog(ls, n.logs, term)
  }

  ghost function Through(a: AppendEntriesArgs): int {
    a.prevLogIndex + |a.entries| + 1
  }

  // What the handler does to the log, on a log without a snapshot.
  lemma AppendShape(n: Node, a: AppendEntriesArgs)
    requires Contiguous(n.logs) && n.logs[0].index == 0 && a.prevLogIndex >= 0
    ensures var out := AppendEntries(n, a);
      && out.node.currentTerm == Max(n.currentTerm, a.term)
      && (!out.reply.success ==> out.node.logs == n.logs)
      && (out.reply.success ==>
            (&& a.prevLogIndex < |n.logs| && n.logs[a.prevLogIndex].term == a.prevLogTerm
             && out.node.logs == Merge(n.logs, a.prevLogIndex + 1, a.entries)))
  {
    hide FirstNew, Merge, ConflictScan;
  }

  lemma DeliverOne(ls: Leaders, term: int, n: Node, a: AppendEntriesArgs, m: nat)
    requires FromLeader(ls, term, [a]) && FollowerOk(ls, term, n)
    ensures Contiguous(n.logs) && FollowerOk(ls, term, AppendEntries(n, a).node)
    ensures var out, lead := AppendEntries(n, a), ls[term].log;
      && (Agree(n.logs, lead, m) ==> Agree(out.node.logs, lead, m))
      && (out.reply.success ==> Agree(out.node.logs, lead, Through(a)))
      && (!out.reply.success ==> out.node.logs == n.logs)
  {
    hide GoodLog, Piece, Merge, Contiguous, AppendEntries, Agree;
    assert [a][0].term == term && Piece(ls, [a][0]);
    PieceNat(ls, a);
    GoodContiguous(ls, term, n.logs);
    AppendShape(n, a);
    if AppendEntries(n, a).reply.success {
      MergeAdopts(ls, n.logs, a, m);
      MergeGood(ls, n.logs, a);
      AgreeTrans(AppendEntries(n, a).node.logs, n.logs, ls[term].log, m);
    }
  }

  lemma GoodContiguous(ls: Leaders, term: int, log: seq<LogEntry>)
    requires GoodLog(ls, log, term)
    ensures Contiguous(log) && log[0].index == 0
  {
  }

  lemma AgreeTrans(a: seq<LogEntry>, b: seq<LogEntry>, c: seq<LogEntry>, m: int)
    ensures Agree(a, b, m) && Agree(b, c, m) ==> Agree(a, c, m)
  {
  }

  lemma {:induction false} FollowerStays(ls: Leaders, term: int, nodes: seq<Node>, messages: seq<AppendEntriesArgs>,
                                         i: nat)
    requires Delivered(nodes, messages) && FromLeader(ls, term, messages) && FollowerOk(ls, term, nodes[0])
    requires i < |nodes|
    ensures FollowerOk(ls, term, nodes[i])
  {
    if i > 0 {
      FollowerStays(ls, term, nodes, messages, i - 1);
      OneOf(ls, term, messages, i - 1);
      hide FollowerOk, GoodLog, Piece;
      DeliverOne(ls, term, nodes[i - 1], messages[i - 1], 0);
    }
  }

  lemma OneOf(ls: Leaders, term: int, messages: seq<AppendEntriesArgs>, i: nat)
    requires FromLeader(ls, term, messages) && i < |messages|
    ensures FromLeader(ls, term, [messages[i]])
  {
  }

  lemma DeliverAt(ls: Leaders, term: int, nodes: seq<Node>, messages: seq<AppendEntriesArgs>, i: nat, m: nat)
    requires Delivered(nodes, messages) && FromLeader(ls, term, messages) && FollowerOk(ls, term, nodes[0])
    requires i < |messages|
    ensures Agree(nodes[i].logs, ls[term].log, m) ==> Agree(nodes[i + 1].logs, ls[term].log, m)
    ensures Contiguous(nodes[i].logs)
    ensures AppendEntries(nodes[i], messages[i]).reply.success ==>
      Agree(nodes[i + 1].logs, ls[term].log, Through(messages[i]))
  {
    hide FollowerOk, GoodLog, Piece, Agree, AppendEntries, Contiguous;
    FollowerStays(ls, term, nodes, messages, i);
    OneOf(ls, term, messages, i);
    DeliverOne(ls, term, nodes[i], messages[i], m);
  }

  // However the messages are reordered or repeated, what the follower shares with the leader
  // is never lost.
  lemma {:induction false} NeverShorter(ls: Leaders, term: int, nodes: seq<Node>, messages: seq<AppendEntriesArgs>,
                                        i: nat, j: nat, m: nat)
    requires Delivered(nodes, messages) && FromLeader(ls, term, messages) && FollowerOk(ls, term, nodes[0])
    requires i <= j < |nodes|
    ensures Agree(nodes[i].logs, ls[term].log, m) ==> Agree(nodes[j].logs, ls[term].log, m)
    decreases j
  {
    hide FollowerOk, GoodLog, Piece, Agree, AppendEntries, Contiguous;
    if i < j {
      NeverShorter(ls, term, nodes, messages, i, j - 1, m);
      DeliverAt(ls, term, nodes, messages, j - 1, m);
    }
  }

  // An accepted message makes the follower's log the leader's through its last entry, and
  // no later message takes that back.
  lemma AcceptedStays(ls: Leaders, term: int, nodes: seq<Node>, messages: seq<AppendEntriesArgs>, i: nat, j: nat)
    requires Delivered(nodes, messages) && FromLeader(ls, term, messages) && FollowerOk(ls, term, nodes[0])
    requires i < j < |nodes|
    ensures Contiguous(nodes[i].logs)
    ensures AppendEntries(nodes[i], messages[i]).reply.success ==>
      Agree(nodes[j].logs, ls[term].log, Through(messages[i]))
  {
    hide FollowerOk, GoodLog, Agree, AppendEntries, Contiguous;
    DeliverAt(ls, term, nodes, messages, i, 0);
    PieceNat(ls, messages[i]);
    NeverShorter(ls, term, nodes, messages, i + 1, j, Through(messages[i]));
  }
}
