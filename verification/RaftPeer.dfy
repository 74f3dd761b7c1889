/**
  The Raft peer as the source writes it: an object whose handlers update its fields in
  place, loop over entries and save to a persister before they release the lock.  Every
  method is proved to do to the fields, to the disk and to its reply what the function of
  the same name in RaftNode does to a Node value; the protocol proofs are about those.

  Timers, condition variables and the goroutines that call the methods are not part of
  the model.
 */
module RaftPeer {
  import opened Wrappers
  import opened RaftNode

  // Encoding and decoding are the identity here.
  class Persister {
    var raftstate: Option<Durable>
    var snapshot: Option<seq<int>>
    ghost var saves: seq<Durable>  // everything ever saved, in order

    constructor ()
      ensures raftstate == None && snapshot == None && saves == []
    {
      raftstate, snapshot, saves := None, None, [];
    }

    // What a server that starts from this persister finds.
    function Stored(): Durable
      reads this
    {
      if raftstate.None? then Blank else raftstate.value
    }

    method SaveStateAndSnapshot(state: Durable, data: Option<seq<int>>)
      modifies this
      ensures Stored() == state && saves == old(saves) + [state]
      ensures snapshot == if data.Some? then data else old(snapshot)
    {
      raftstate := Some(state);
      if data.Some? {
        snapshot := data;
      }
      saves := saves + [state];
    }
  }

  // What replicateOnceRound finds to do for a peer: nothing, an InstallSnapshot, an
  // AppendEntries, or a slice out of range (nextIndex beyond the log), which panics.
  datatype Round = NotLeader | NeedsSnapshot | OutOfRange | Send(args: AppendEntriesArgs)

  // The loop of Make over the peers.
  method InitialIndices(peers: nat, last: int) returns (nextIndex: seq<int>, matchIndex: seq<int>)
    ensures nextIndex == seq(peers, _ => last + 1) && matchIndex == seq(peers, _ => 0)
  {
    nextIndex, matchIndex := [], [];
    for i := 0 to peers
      invariant |nextIndex| == |matchIndex| == i
      invariant forall q :: 0 <= q < i ==> nextIndex[q] == last + 1 && matchIndex[q] == 0
    {
      matchIndex, nextIndex := matchIndex + [0], nextIndex + [last + 1];
    }
  }

  class Raft {
    const me: nat
    const persister: Persister
    var currentTerm: int
    var votedFor: int
    var logs: seq<LogEntry>
    var commitIndex: int
    var lastApplied: int
    var nextIndex: seq<int>
    var matchIndex: seq<int>
    var state: NodeState
    var grantedVotes: int  // of the election in progress; a local of StartElection in the source

    ghost function View(): Node
      reads this
    {
      Node(me, currentTerm, votedFor, logs, commitIndex, lastApplied, nextIndex, matchIndex, state, grantedVotes)
    }

    // The lock is free: memory and disk agree.
    ghost predicate Valid()
      reads this, persister
    {
      && Contiguous(logs)
      && me < |nextIndex| == |matchIndex|
      && logs[0].index <= commitIndex
      && persister.Stored() == DurableOf(View())
    }

    // Make, with readPersist.
    constructor (peers: nat, me: nat, persister: Persister)
      requires me < peers && Contiguous(persister.Stored().logs)
      ensures Valid() && this.persister == persister
      ensures View() == Restart(persister.Stored(), me, peers)
    {
      this.me := me;
      this.persister := persister;
      currentTerm, votedFor, logs := 0, -1, [Dummy];
      commitIndex, lastApplied := 0, 0;
      state, grantedVotes := Follower, 0;
      nextIndex, matchIndex := [], [];
      new;
      if persister.raftstate.Some? {
        var d := persister.raftstate.value;
        currentTerm, votedFor, logs := d.currentTerm, d.votedFor, d.logs;
        lastApplied, commitIndex := logs[0].index, logs[0].index;
      }
      var last := logs[|logs| - 1].index;
      nextIndex, matchIndex := InitialIndices(peers, last);
    }

    method Persist()
      modifies persister
      ensures persister.Stored() == DurableOf(View()) && persister.saves == old(persister.saves) + [DurableOf(View())]
      ensures persister.snapshot == old(persister.snapshot)
    {
      persister.SaveStateAndSnapshot(Durable(currentTerm, votedFor, logs), None);
    }

    // The election branch of ticker, with StartElection.
    method ElectionTimeout() returns (args: RequestVoteArgs)
      requires Valid()
      modifies this, persister
      ensures Valid()
      ensures var o := RaftNode.ElectionTimeout(old(View()));
        View() == o.node && args == o.reply && persister.saves == old(persister.saves) + o.writes
    {
      state := Candidate;
      currentTerm := currentTerm + 1;
      Persist();
      votedFor := me;
      Persist();
      var last := logs[|logs| - 1];
      args := RequestVoteArgs(currentTerm, me, last.index, last.term);
      grantedVotes := 1;
    }

    method RequestVote(args: RequestVoteArgs) returns (reply: RequestVoteReply)
      requires Valid()
      modifies this, persister
      ensures Valid()
      ensures var o := RaftNode.RequestVote(old(View()), args);
        View() == o.node && reply == o.reply && persister.saves == old(persister.saves) + o.writes
    {
      if args.term < currentTerm || (args.term == currentTerm && votedFor != -1 && votedFor != args.candidateId) {
        return RequestVoteReply(currentTerm, false);
      }
      if args.term > currentTerm {
        state := Follower;
        currentTerm, votedFor := args.term, -1;
        Persist();
      }
      var last := logs[|logs| - 1];
      if !(args.lastLogTerm > last.term || (args.lastLogTerm == last.term && args.lastLogIndex >= last.index)) {
        return RequestVoteReply(currentTerm, false);
      }
      votedFor := args.candidateId;
      Persist();
      reply := RequestVoteReply(currentTerm, true);
    }

    // What StartElection's goroutine does with a reply.
    method OnVoteReply(args: RequestVoteArgs, reply: RequestVoteReply)
      requires Valid()
      modifies this, persister
      ensures Valid()
      ensures var o := VoteReply(old(View()), args, reply, false);
        View() == o.node && persister.saves == old(persister.saves) + o.writes
    {
      if args.term == currentTerm && state == Candidate {
        if reply.voteGranted {
          grantedVotes := grantedVotes + 1;
          if grantedVotes > |matchIndex| / 2 {
            state := Leader;
          }
        } else if reply.term > currentTerm {
          state := Follower;
          currentTerm, votedFor := reply.term, -1;
          Persist();
        }
      }
    }

    method AppendEntries(args: AppendEntriesArgs) returns (reply: AppendEntriesReply)
      requires Valid() && Follows(args.entries, args.prevLogIndex)
      modifies this, persister
      ensures Valid()
      ensures var o := RaftNode.AppendEntries(old(View()), args);
        View() == o.node && reply == o.reply && persister.saves == old(persister.saves) + o.writes
    {
      hide Accept, FirstNew, ConflictScan;
      if args.term < currentTerm {
        return AppendEntriesReply(currentTerm, false, 0, 0);
      }
      if args.term > currentTerm {
        currentTerm, votedFor := args.term, -1;
        Persist();
      }
      state := Follower;
      var first, last := logs[0].index, logs[|logs| - 1].index;
      if args.prevLogIndex < first {
        return AppendEntriesReply(currentTerm, false, 0, 0);
      }
      if args.prevLogIndex > last {
        return AppendEntriesReply(currentTerm, false, last + 1, -1);
      }
      if logs[args.prevLogIndex - first].term != args.prevLogTerm {
        var index := ScanConflict(args.prevLogIndex, args.prevLogTerm);
        return AppendEntriesReply(currentTerm, false, index + 1, args.prevLogTerm);
      }
      AcceptEntries(args);
      reply := AppendEntriesReply(currentTerm, true, 0, 0);
    }

    // The rest of AppendEntries, once the logs match at prevLogIndex.
    method AcceptEntries(args: AppendEntriesArgs)
      requires Valid() && Follows(args.entries, args.prevLogIndex)
      requires logs[0].index <= args.prevLogIndex <= LastLog(View()).index
      modifies `logs, `commitIndex, persister
      ensures Valid() && View() == Accept(old(View()), args)
      ensures persister.saves == old(persister.saves)
        + if FirstNew(old(logs), args.prevLogIndex - old(logs)[0].index + 1, args.entries, 0) == |args.entries|
          then [] else [DurableOf(View())]
    {
      hide Merge, FirstNew;
      TakeEntries(args.prevLogIndex, args.entries);
      var newCommit := Min(args.leaderCommit, logs[|logs| - 1].index);
      if newCommit > commitIndex {
        commitIndex := newCommit;
      }
    }

    // AppendEntries' loop for the first index of the conflicting term.
    method ScanConflict(from: int, term: int) returns (index: int)
      requires Contiguous(logs) && from <= LastLog(View()).index
      ensures index == ConflictScan(View(), from, term)
    {
      var first := logs[0].index;
      index := from;
      while index >= first && logs[index - first].term == term
        invariant index <= LastLog(View()).index
        invariant ConflictScan(View(), index, term) == ConflictScan(View(), from, term)
        decreases index - first
      {
        index := index - 1;
      }
    }

    // AppendEntries' loop for the junction of the log and the message.
    method TakeEntries(prev: int, entries: seq<LogEntry>)
      requires Contiguous(logs) && logs[0].index <= prev <= LastLog(View()).index && Follows(entries, prev)
      modifies `logs, persister
      ensures logs == Merge(old(logs), prev - old(logs)[0].index + 1, entries)
      ensures Contiguous(logs) && logs[0] == old(logs)[0]
      ensures if FirstNew(old(logs), prev - old(logs)[0].index + 1, entries, 0) == |entries|
              then
                && logs == old(logs) && persister.saves == old(persister.saves)
                && persister.Stored() == old(persister.Stored())
              else
                && persister.saves == old(persister.saves) + [DurableOf(View())]
                && persister.Stored() == DurableOf(View())
    {
      var first := logs[0].index;
      var index := Junction(prev, entries);
      ghost var at := prev - first + 1;
      MergeIs(logs, at, entries);
      if index < |entries| {
        var entry := entries[index];
        assert entry.index - first == at + index;
        FollowsTail(entries, prev, index);
        ContiguousReplace(logs, at + index, entries[index..]);
        hide Contiguous, FirstNew, Merge, Follows;
        logs := logs[..entry.index - first] + entries[index..];
        Persist();
      }
    }

    // The loop of AppendEntries up to its break: the junction of the log and the entries.
    method Junction(prev: int, entries: seq<LogEntry>) returns (index: nat)
      requires Contiguous(logs) && logs[0].index <= prev <= LastLog(View()).index && Follows(entries, prev)
      ensures prev - logs[0].index + 1 <= |logs|
      ensures index == FirstNew(logs, prev - logs[0].index + 1, entries, 0)
    {
      var first := logs[0].index;
      ghost var at := prev - first + 1;
      LastPosition(logs);
      hide Contiguous;
      index := 0;
      while index < |entries|
        invariant 0 <= index <= |entries| && at + index <= |logs|
        invariant FirstNew(logs, at, entries, index) == FirstNew(logs, at, entries, 0)
      {
        var entry := entries[index];
        if entry.index - first >= |logs| || logs[entry.index - first].term != entry.term {
          break;
        }
        index := index + 1;
      }
    }

    method Start(command: Command) returns (index: int, term: int, isLeader: bool)
      requires Valid()
      modifies this, persister
      ensures Valid()
      ensures var o := RaftNode.Start(old(View()), command);
        View() == o.node && (index, term, isLeader) == o.reply && persister.saves == old(persister.saves) + o.writes
    {
      if state != Leader {
        return -1, -1, false;
      }
      var newLogIndex := logs[|logs| - 1].index + 1;
      logs := logs + [LogEntry(command, currentTerm, newLogIndex)];
      Persist();
      matchIndex, nextIndex := matchIndex[me := newLogIndex], nextIndex[me := newLogIndex + 1];
      return newLogIndex, currentTerm, true;
    }

    // The first half of replicateOnceRound.
    method NextRound(peer: nat) returns (r: Round)
      requires Valid() && peer < |nextIndex|
      ensures r.NotLeader? <==> state != Leader
      ensures r.NeedsSnapshot? <==> state == Leader && nextIndex[peer] - 1 < logs[0].index
      ensures r.Send? <==> state == Leader && logs[0].index <= nextIndex[peer] - 1 <= LastLog(View()).index
      ensures r.Send? ==> r.args == GenAppendEntriesArgs(View(), nextIndex[peer] - 1)
                          && Follows(r.args.entries, r.args.prevLogIndex)
    {
      if state != Leader {
        return NotLeader;
      }
      var prev, first := nextIndex[peer] - 1, logs[0].index;
      if prev < first {
        return NeedsSnapshot;
      }
      if prev - first + 1 > |logs| {
        return OutOfRange;
      }
      var entries := logs[prev - first + 1..];
      r := Send(AppendEntriesArgs(currentTerm, me, prev, logs[prev - first].term, commitIndex, entries));
    }

    // The second half of replicateOnceRound.
    method OnAppendReply(peer: nat, args: AppendEntriesArgs, reply: AppendEntriesReply)
      requires Valid() && peer < |nextIndex|
      requires args.term == currentTerm && state == Leader ==> args.prevLogIndex - 1 <= LastLog(View()).index
      modifies this, persister
      ensures Valid()
      ensures var o := AppendReply(old(View()), peer, args, reply);
        View() == o.node && persister.saves == old(persister.saves) + o.writes
    {
      hide BackUp, MajorityIndex;
      if args.term == currentTerm && state == Leader {
        if !reply.success {
          if reply.term > currentTerm {
            state := Follower;
            currentTerm, votedFor := reply.term, -1;
            Persist();
          } else if reply.term == currentTerm {
            var next := reply.conflictIndex;
            if reply.conflictTerm != -1 {
              next := ScanBackUp(args.prevLogIndex - 1, reply.conflictTerm, reply.conflictIndex);
            }
            nextIndex := nextIndex[peer := next];
          }
        } else {
          matchIndex := matchIndex[peer := args.prevLogIndex + |args.entries|];
          nextIndex := nextIndex[peer := matchIndex[peer] + 1];
          AdvanceCommitIndexForLeader();
        }
      }
    }

    // replicateOnceRound's loop for an entry of the conflicting term.
    method ScanBackUp(from: int, term: int, otherwise: int) returns (next: int)
      requires Contiguous(logs) && from <= LastLog(View()).index
      ensures next == BackUp(View(), from, term, otherwise)
    {
      var first := logs[0].index;
      var index := from;
      while index >= first
        invariant index <= LastLog(View()).index
        invariant BackUp(View(), index, term, otherwise) == BackUp(View(), from, term, otherwise)
        decreases index - first
      {
        if logs[index - first].term == term {
          return index;
        }
        index := index - 1;
      }
      next := otherwise;
    }

    method AdvanceCommitIndexForLeader()
      requires Valid()
      modifies `commitIndex
      ensures Valid() && View() == AdvanceCommit(old(View()))
    {
      var n := |matchIndex|;
      var sorted := SortInts(matchIndex);
      var newCommit := sorted[n - (n / 2 + 1)];
      if newCommit > commitIndex {
        var first := logs[0].index;
        if newCommit <= logs[|logs| - 1].index && logs[newCommit - first].term == currentTerm {
          commitIndex := newCommit;
        }
      }
    }

    // The applier copies a batch under the lock, and reports it done under the lock.
    method TakeBatch() returns (entries: seq<LogEntry>)
      requires Valid() && logs[0].index <= lastApplied <= commitIndex <= LastLog(View()).index
      ensures entries == ApplyBatch(View())
    {
      var first := logs[0].index;
      entries := logs[lastApplied - first + 1..commitIndex - first + 1];
    }

    method BatchDone(upto: int)
      requires Valid()
      modifies `lastApplied
      ensures Valid() && View() == Applied(old(View()), upto)
      ensures lastApplied >= old(lastApplied) && lastApplied >= upto && lastApplied in {old(lastApplied), upto}
    {
      lastApplied := Max(lastApplied, upto);
    }

    method Snapshot(index: int, data: seq<int>)
      requires Valid() && index <= commitIndex
      modifies `logs, persister
      ensures Valid() && View() == Compact(old(View()), index)
      ensures persister.snapshot ==
        if old(logs[0].index < index <= LastLog(View()).index) then Some(data) else old(persister.snapshot)
    {
      var first := logs[0].index;
      if index <= first || index > logs[|logs| - 1].index {
        return;
      }
      logs := logs[index - first..];
      logs := logs[0 := logs[0].(command := Nil)];
      persister.SaveStateAndSnapshot(Durable(currentTerm, votedFor, logs), Some(data));
    }
  }

  // A crash at any moment between steps loses nothing that was saved: a new peer on the
  // same persister continues with the term, vote and log of the old one.
  method CrashAndRestart(old_: Raft) returns (fresh_: Raft)
    requires old_.Valid()
    ensures fresh(fresh_) && fresh_.Valid() && fresh_.persister == old_.persister
    ensures DurableOf(fresh_.View()) == DurableOf(old_.View())
    ensures fresh_.state == Follower && fresh_.commitIndex == fresh_.lastApplied == old_.logs[0].index
  {
    fresh_ := new Raft(|old_.matchIndex|, old_.me, old_.persister);
  }
}
