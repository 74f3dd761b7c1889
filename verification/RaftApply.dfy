/**
  In-order apply with snapshots, in runs of the cluster.  One incarnation of a server sees
  the events of a run; if it also takes snapshots of what was delivered to it, whenever it
  likes, it hands its state machine the entries of its log, in order, all the same.
 */
module RaftApply {
  import opened RaftNode
  import P = RaftProtocol
  import opened RaftInvariant
  import opened RaftActions
  import opened RaftBelief
  import opened RaftCommit
  import opened RaftCompaction

  function SiteOf(peer: P.Peer): Site {
    Site(peer.node, peer.applier.busy, peer.applier.upto)
  }

  // What the step is for server p, if anything.
  ghost function EventOf(w: P.World, a: P.Action, p: nat): seq<Event>
    requires P.Enabled(w, a)
  {
    if a.Torn? || P.Actor(a) != p then []
    else
      match a
      case Timeout(_) => [Tick]
      case AskVote(key) => [Ask(w.votes[key].args)]
      case TellVote(key) => [Count(w.votes[key].args, w.votes[key].reply)]
      case SendAppend(_, to) => [Send(w.peers[p].node.nextIndex[to] - 1)]
      case RecvAppend(m) => [Receive(m.args)]
      case RecvAck(ack) => [Ack(ack.msg.to, ack.msg.args, ack.reply)]
      case Submit(_, command) => [Propose(command)]
      case Take(_) => [Take]
      case Finish(_) => [Done]
      case _ => []
  }

  // p does not go down in this step.
  predicate StaysUp(a: P.Action, p: nat) {
    (a.Crash? || a.Torn?) ==> P.Actor(a) != p
  }

  // ------------------------------------------------------------------ one step

  lemma SiteWf(w: P.World, p: nat)
    requires Inv(w) && SafePeer(w, p)
    ensures Wf(SiteOf(w.peers[p])) && InLog(SiteOf(w.peers[p])) && w.peers[p].node.logs[0].index == 0
  {
    hide Inv, Anchored, TermsUpTo;
    LocalOf(w, p);
    FirstIsDummy(w, p);
    ShapeContiguous(w.peers[p].node.logs);
    hide Shape;
  }

  lemma PieceFollows(w: P.World, a: AppendEntriesArgs)
    requires Inv(w) && Piece(w.hist.leaders, a)
    ensures Follows(a.entries, a.prevLogIndex)
  {
    LeaderShape(w, a.term);
    hide Inv;
  }

  lemma EventAllowed(w: P.World, a: P.Action, p: nat)
    requires Inv(w) && SafePeer(w, p) && P.Enabled(w, a) && EventOf(w, a, p) != []
    ensures Allowed(SiteOf(w.peers[p]), EventOf(w, a, p)[0])
  {
    hide Inv, Wf, InLog, Anchored, Piece, Follows;
    SiteWf(w, p);
    if a.RecvAppend? {
      MsgOf(w, a.msg);
      PieceNat(w.hist.leaders, a.msg.args);
      PieceFollows(w, a.msg.args);
    }
  }

  lemma VoteHandled(cfg: P.Config, w: P.World, a: P.Action, p: nat)
    requires P.Enabled(w, a) && P.Actor(a) == p && !cfg.reset && (a.Timeout? || a.AskVote? || a.TellVote?)
    requires Allowed(SiteOf(w.peers[p]), EventOf(w, a, p)[0])
    ensures p < |P.Act(cfg, w, a).peers|
    ensures SiteOf(P.Act(cfg, w, a).peers[p]) == Handle(SiteOf(w.peers[p]), EventOf(w, a, p)[0]).0
  {
    hide AppendEntries, AppendReply, RequestVote, VoteReply, ElectionTimeout, Start, P.Note, Wf;
  }

  lemma LogHandled(cfg: P.Config, w: P.World, a: P.Action, p: nat)
    requires P.Enabled(w, a) && P.Actor(a) == p && (a.RecvAppend? || a.RecvAck? || a.Submit? || a.Take? || a.Finish?)
    requires Allowed(SiteOf(w.peers[p]), EventOf(w, a, p)[0])
    ensures p < |P.Act(cfg, w, a).peers|
    ensures SiteOf(P.Act(cfg, w, a).peers[p]) == Handle(SiteOf(w.peers[p]), EventOf(w, a, p)[0]).0
  {
    hide AppendEntries, AppendReply, RequestVote, VoteReply, ElectionTimeout, Start, P.Note, Wf;
  }

  lemma EventHandled(cfg: P.Config, w: P.World, a: P.Action, p: nat)
    requires P.Enabled(w, a) && StaysUp(a, p) && p < |w.peers| && !cfg.reset
    requires EventOf(w, a, p) != [] ==> Allowed(SiteOf(w.peers[p]), EventOf(w, a, p)[0])
    ensures p < |P.Act(cfg, w, a).peers|
    ensures SiteOf(P.Act(cfg, w, a).peers[p]) ==
      if EventOf(w, a, p) == [] then SiteOf(w.peers[p])
      else Handle(SiteOf(w.peers[p]), EventOf(w, a, p)[0]).0
  {
    hide P.StepTimeout, P.StepAskVote, P.StepTellVote, P.StepSubmit, P.StepTorn, AppendEntries, AppendReply, Wf, Guard;
    if P.Actor(a) != p {
      Elsewhere(cfg, w, a, p);
    } else if a.Timeout? || a.AskVote? || a.TellVote? {
      VoteHandled(cfg, w, a, p);
    } else if a.RecvAppend? || a.RecvAck? || a.Submit? || a.Take? || a.Finish? {
      LogHandled(cfg, w, a, p);
    }
  }

  // No step but a message makes a log shorter.
  lemma LogGrows(cfg: P.Config, w: P.World, a: P.Action, p: nat)
    requires Inv(w) && P.Enabled(w, a) && StaysUp(a, p) && p < |w.peers| && !(a.RecvAppend? && a.msg.to == p)
    ensures p < |P.Act(cfg, w, a).peers| && w.peers[p].node.logs <= P.Act(cfg, w, a).peers[p].node.logs
  {
    hide Inv, AppendEntries, AppendReply, RequestVote, P.Note, P.Writes;
    if P.Actor(a) != p {
      Elsewhere(cfg, w, a, p);
    } else if a.AskVote? {
      VoteKeepsLog(w.peers[p].node, w.votes[a.key].args);
    } else if a.RecvAck? {
      AppendReplyNode(w, a.ack);
    }
  }

  lemma MessageSurvives(w: P.World, m: P.AppendMsg)
    requires P.PeerOk(w, m.to) && m in w.appends
    requires Inv(w) && Safe(w)
    ensures 0 <= w.peers[m.to].node.commitIndex
    ensures Agree(AppendEntries(w.peers[m.to].node, m.args).node.logs, w.peers[m.to].node.logs,
                  w.peers[m.to].node.commitIndex + 1)
  {
    hide Inv, SafePeer, SafeMsg, Matched, Accept, Piece, AppendEntries;
    var n, a := w.peers[m.to].node, m.args;
    MsgOf(w, m);
    SafePeerOf(w, m.to);
    CommitInLog(w, m.to);
    AppendEntriesNode(n, a);
    if a.term >= n.currentTerm && Matched(Seen(n, a.term), a) {
      AcceptSafe(w, m.to, a);
    }
  }

  lemma StepSurvives(cfg: P.Config, w: P.World, a: P.Action, p: nat)
    requires Inv(w) && Safe(w) && P.Enabled(w, a) && StaysUp(a, p) && p < |w.peers|
    ensures p < |P.Act(cfg, w, a).peers|
    ensures Survives(SiteOf(w.peers[p]), SiteOf(P.Act(cfg, w, a).peers[p]))
  {
    hide Inv, Safe, P.Act, AppendEntries;
    FirstIsDummy(w, p);
    if a.RecvAppend? && a.msg.to == p {
      SameLeaders(cfg, w, a.msg);
      MessageSurvives(w, a.msg);
      AgreeSurvives(w.peers[p], P.Act(cfg, w, a).peers[p]);
    } else {
      LogGrows(cfg, w, a, p);
      PrefixSurvives(w.peers[p], P.Act(cfg, w, a).peers[p]);
    }
  }

  lemma AgreeSurvives(x: P.Peer, y: P.Peer)
    requires |x.node.logs| > 0 && x.node.logs[0].index == 0 <= x.node.commitIndex
    requires Agree(y.node.logs, x.node.logs, x.node.commitIndex + 1)
    ensures Survives(SiteOf(x), SiteOf(y))
  {
  }

  lemma PrefixSurvives(x: P.Peer, y: P.Peer)
    requires |x.node.logs| > 0 && x.node.logs <= y.node.logs
    ensures Survives(SiteOf(x), SiteOf(y))
  {
  }

  // ------------------------------------------------------------------ an incarnation

  // The events of p from ws[a] to ws[b].
  ghost function Events(ws: seq<P.World>, acts: seq<P.Action>, p: nat, a: nat, b: nat): seq<Event>
    requires a <= b < |ws| == |acts| + 1 && forall k :: a <= k < b ==> P.Enabled(ws[k], acts[k])
    decreases b - a
  {
    if a == b then [] else EventOf(ws[a], acts[a], p) + Events(ws, acts, p, a + 1, b)
  }

  // The events without the snapshots.
  ghost function Plain(es: seq<Event>): seq<Event> {
    if es == [] then [] else (if es[0].Snapshot? then [] else [es[0]]) + Plain(es[1..])
  }

  // A stretch of a run of the source in which p stays up and no committed entry is at risk.
  ghost predicate Stretch(cfg: P.Config, ws: seq<P.World>, acts: seq<P.Action>, p: nat, a: nat, b: nat) {
    && P.IsRun(cfg, ws, acts) && Trusted(cfg, ws) && !cfg.reset && p < cfg.n && a <= b < |ws|
    && forall k :: a <= k < b ==> StaysUp(acts[k], p)
  }

  lemma StretchStep(cfg: P.Config, ws: seq<P.World>, acts: seq<P.Action>, p: nat, a: nat, b: nat)
    requires Stretch(cfg, ws, acts, p, a, b) && a < b
    ensures P.Enabled(ws[a], acts[a]) && p < |ws[a].peers| && p < |ws[a + 1].peers|
    ensures var f, f', es := SiteOf(ws[a].peers[p]), SiteOf(ws[a + 1].peers[p]), EventOf(ws[a], acts[a], p);
      && |es| <= 1
      && if es == [] then f' == f
         else !es[0].Snapshot? && Allowed(f, es[0]) && f' == HandleFull(f, es[0]).0 && Survives(f, f')
  {
    hide Inv, Safe, Later, P.Enabled, P.Act, Trusted, Allowed, Handle, Survives, SafePeer;
    var w := ws[a];
    RunInv(cfg, ws, acts, a, a);
    RunSafe(cfg, ws, acts, a);
    SafePeerOf(w, p);
    assert P.Enabled(w, acts[a]) && ws[a + 1] == P.Act(cfg, w, acts[a]) && StaysUp(acts[a], p);
    EventKind(w, acts[a], p);
    if EventOf(w, acts[a], p) != [] { EventAllowed(w, acts[a], p); }
    EventHandled(cfg, w, acts[a], p);
    StepSurvives(cfg, w, acts[a], p);
  }

  lemma EventKind(w: P.World, a: P.Action, p: nat)
    requires P.Enabled(w, a)
    ensures var es := EventOf(w, a, p); |es| <= 1 && (es != [] ==> !es[0].Snapshot?)
  {
  }

  ghost predicate Traced(ws: seq<P.World>, acts: seq<P.Action>, p: nat, a: nat, b: nat, es: seq<Event>) {
    && a <= b < |ws| == |acts| + 1 && (forall k :: a <= k < b ==> P.Enabled(ws[k], acts[k]))
    && Plain(es) == Events(ws, acts, p, a, b)
  }

  lemma TracedSnapshot(ws: seq<P.World>, acts: seq<P.Action>, p: nat, a: nat, b: nat, es: seq<Event>)
    requires Traced(ws, acts, p, a, b, es) && es != [] && es[0].Snapshot?
    ensures Traced(ws, acts, p, a, b, es[1..])
  {
    hide P.Enabled, EventOf;
  }

  lemma TracedStep(ws: seq<P.World>, acts: seq<P.Action>, p: nat, a: nat, b: nat, es: seq<Event>)
    requires Traced(ws, acts, p, a, b, es) && a < b && (es != [] ==> !es[0].Snapshot?)
    requires P.Enabled(ws[a], acts[a]) && |EventOf(ws[a], acts[a], p)| <= 1
    ensures EventOf(ws[a], acts[a], p) == [] ==> Traced(ws, acts, p, a + 1, b, es)
    ensures EventOf(ws[a], acts[a], p) != [] ==> es != [] && EventOf(ws[a], acts[a], p)[0] == es[0]
    ensures EventOf(ws[a], acts[a], p) != [] ==> Traced(ws, acts, p, a + 1, b, es[1..])
  {
    hide P.Enabled, EventOf;
    var now, later := EventOf(ws[a], acts[a], p), Events(ws, acts, p, a + 1, b);
    assert Plain(es) == now + later;
    if now != [] {
      assert Plain(es)[0] == now[0] == es[0] && Plain(es)[1..] == later;
      assert Plain(es)[1..] == Plain(es[1..]);
    }
  }

  lemma TracedEnd(ws: seq<P.World>, acts: seq<P.Action>, p: nat, a: nat, b: nat, es: seq<Event>)
    requires Traced(ws, acts, p, a, b, es) && a == b && (es != [] ==> !es[0].Snapshot?)
    ensures es == []
  {
  }

  // The full log of p, going through the events, is p's log in the run.
  lemma {:induction false} Incarnation(cfg: P.Config, ws: seq<P.World>, acts: seq<P.Action>, p: nat, a: nat, b: nat,
                                       c: Site, es: seq<Event>)
    requires Stretch(cfg, ws, acts, p, a, b) && Traced(ws, acts, p, a, b, es)
    requires p < |ws[a].peers| && Refines(c, SiteOf(ws[a].peers[p])) && Wf(c) && Guarded(c, es)
    ensures p < |ws[b].peers|
    ensures NothingLost(SiteOf(ws[a].peers[p]), es)
    ensures Final(SiteOf(ws[a].peers[p]), es) == SiteOf(ws[b].peers[p])
    decreases |es| + b - a
  {
    hide Refines, Wf, Guard, Handle, P.Enabled, P.Act, Trusted, Traced, EventOf;
    var f := SiteOf(ws[a].peers[p]);
    if es != [] && es[0].Snapshot? {
      SnapshotStep(c, f, es[0]);
      TracedSnapshot(ws, acts, p, a, b, es);
      Incarnation(cfg, ws, acts, p, a, b, Handle(c, es[0]).0, es[1..]);
    } else if a < b {
      StretchStep(cfg, ws, acts, p, a, b);
      TracedStep(ws, acts, p, a, b, es);
      if EventOf(ws[a], acts[a], p) == [] {
        Incarnation(cfg, ws, acts, p, a + 1, b, c, es);
      } else {
        EventStep(c, f, es[0]);
        Incarnation(cfg, ws, acts, p, a + 1, b, Handle(c, es[0]).0, es[1..]);
      }
    } else {
      assert es == [] by { TracedEnd(ws, acts, p, a, b, es); }
    }
  }

  lemma EventStep(c: Site, f: Site, e: Event)
    requires Refines(c, f) && Wf(c) && Guard(c, e)
    ensures Allowed(f, e) && Wf(Handle(c, e).0) && Refines(Handle(c, e).0, HandleFull(f, e).0)
  {
    hide Refines, Wf, Guard, Handle;
    HandlesSame(c, f, e);
    WfKept(c, e);
  }

  lemma SnapshotStep(c: Site, f: Site, e: Event)
    requires Refines(c, f) && Wf(c) && Guard(c, e) && e.Snapshot?
    ensures Allowed(f, e) && HandleFull(f, e).0 == f && Survives(f, f)
    ensures Wf(Handle(c, e).0) && Refines(Handle(c, e).0, f)
  {
    EventStep(c, f, e);
    assert |f.node.logs| > 0;
    hide Refines, Wf, Guard, Handle;
  }

  // However many snapshots p takes of what was delivered to it, between batches or in the
  // middle of one, the batches it delivers are the entries of its log in the run, from where
  // it started to where it stands, in order and without gap or repeat.
  lemma AppliedWithSnapshots(cfg: P.Config, ws: seq<P.World>, acts: seq<P.Action>, p: nat, a: nat, b: nat,
                             c: Site, es: seq<Event>)
    requires Stretch(cfg, ws, acts, p, a, b) && Traced(ws, acts, p, a, b, es)
    requires p < |ws[a].peers| && Refines(c, SiteOf(ws[a].peers[p])) && Wf(c) && Guarded(c, es)
    ensures p < |ws[b].peers|
    ensures var g := SiteOf(ws[b].peers[p]);
      && 0 <= Delivered(c) <= Delivered(g) < |g.node.logs|
      && Batches(Answers(c, es)) == g.node.logs[Delivered(c) + 1..Delivered(g) + 1]
  {
    hide Refines, Wf, Guarded, P.Act, P.Enabled, Trusted, Traced, Inv, Safe, Later, SafePeer, NothingLost, Final,
         Answers;
    RunInv(cfg, ws, acts, a, b);
    RunSafe(cfg, ws, acts, a);
    SafePeerOf(ws[a], p);
    SiteWf(ws[a], p);
    Incarnation(cfg, ws, acts, p, a, b, c, es);
    SnapshotsDeliverTheLog(c, SiteOf(ws[a].peers[p]), es);
    assert Delivered(c) >= 0 by { RefinesDelivered(c, SiteOf(ws[a].peers[p])); }
  }

  lemma RefinesDelivered(c: Site, f: Site)
    requires Refines(c, f) && InLog(f) && f.node.logs[0].index == 0
    ensures Delivered(c) >= 0
  {
  }
}
