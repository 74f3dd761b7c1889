# Raft, a linearizability checker and an exactly-once key/value service, verified

A Dafny model of three components of the repository and proofs about every run, every
history and every input of theirs. `dafny verify dfyconfig.toml` checks all of it.

## What is modelled

**Raft** (`src/raft`). `RaftNode` gives each locked region of a server as a function from
the node before to the node after, its durable writes and its reply. `RaftPeer` is the
imperative form: a class with the fields of the `Raft` struct whose methods, loops included,
are proved to do what those functions say and to leave memory and disk equal whenever the
lock is free. `RaftProtocol` puts any number of servers together with lost, delayed,
reordered and repeated messages, crashes between steps, and crashes after any of the durable
writes inside a step. `RaftInvariant`, `RaftSteps` and `RaftActions` prove what every step
keeps; `RaftSafety` and `RaftCommit` draw the theorems of the extended Raft paper (sections
5.2, 5.3, 5.4.1 and 5.4.3).

The comment at `src/raft/raft.go:36` says that `matchIndex` is reinitialized after an
election. The code does not do it, and the model follows the code.

- Election Safety, Log Matching and Leader Completeness hold for the code as written.
- State Machine Safety depends on the size of the cluster, and `RaftExact` says how: every
  run of the code as written has it if and only if there are at most two servers. With the
  reset that the comment promises, every cluster has it.
- `RaftStale` gives the run that breaks it, for every cluster of three servers or more: no
  crash, no lost message, none delivered twice, no leader that times out. A re-elected leader
  commits, on the strength of a `matchIndex` of an earlier term, an entry that nobody else
  holds.
- `RaftCommit` proves it for every cluster of at most two, and for every run in which no
  winner has, at the moment it wins, a `matchIndex` of another server beyond its own log
  (`FreshWins`). `RaftBelief` proves what this rests on: replies are true in all runs, and a
  leader with true beliefs keeps them. `RaftFresh` shows that the condition on winners is
  exact for what `matchIndex` is meant to be: the new leader's beliefs stay true, whatever the
  cluster does while it leads, if and only if the condition holds.

`RaftDuties` says what each handler does, without the handler: which votes are granted, which
messages accepted, what is committed, where the next message starts, what a snapshot leaves.
`RaftDelivery` is about one leader's messages in any order. `RaftCompaction` is about
snapshots: a server that discards its log up to delivered indices answers like one that keeps
it all, and delivers the same entries. `RaftApply` says so of the servers of a run.

**The checker** (`src/porcupine`, `src/models/kv.go`). `Linearizability` says what a history
and a linearization are; `Search` is the backtracking search seen from above; `EntryList` is
the doubly linked list on the heap with `lift` and `unlift`; `Bitset` the words of bits;
`Checker` is `checkSingle` itself, which mutates all of these, proved to decide
linearizability, to terminate, and to report longest partial linearizations (for a state
comparison that is merely reflexive: to terminate and to be sound). `History` carries the
result from events to operations with times. `KvModel` proves that a key/value history is
linearizable exactly when each key's part is, and `KvMeaning` says what that means without a
transition function; `KvCheck` puts them together. `Visualizer` shows that its replay cannot
panic and what it displays.

**The key/value service** (`src/kvsrv`). `KvServer` is the server, region by region;
`KvProtocol` adds any number of clerks that retry and confirm over a network that loses
requests and replies; `KvSafety` proves that each call takes effect exactly once, that every
history is linearizable, and that the checker therefore accepts it.

## Model

| member | source | states |
|---|---|---|
| Quorum.Overlap | src/raft/raft.go:232 | two majorities of the same servers share a server |
| Quorum.MajorityIndexIsGreatest | src/raft/raft.go:279-285 | for every cluster size, the chosen element of the sorted matchIndex is reached by a majority, and nothing greater is |
| RaftNode.FirstNewIsFirst | src/raft/rpc.go:155-162 | the merge loop stops at the first entry that the log lacks or holds with another term, and at no earlier one |
| RaftActions.UpToDateVouches | src/raft/raft.go:265-270 | a voter that finds a candidate up to date has each entry it ever held, of an earlier term, in the candidate's log, unless a leader in between lacked it |
| RaftActions.MergeAdopts | src/raft/rpc.go:154-162 | after an accepted message the log is the leader's through the message's last entry, and nothing it shared with the leader is lost |
| RaftActions.MergeKeeps | src/raft/rpc.go:154-162 | a merge drops an entry a server once held only if some later leader lacked it |
| RaftActions.ActKeepsInv | src/raft/raft.go:207-247 | every step of every server, of the network and every crash keeps the five layers of the invariant, and leaders' logs only grow |
| RaftActions.RunInv | src/raft/raft.go:417-428 | the invariant holds in every state of every run, including persisted state equal to memory whenever the lock is free |
| RaftSafety.ElectionSafety | src/raft/raft.go:207-247 | at most one server is ever leader in a term, at any two times of a run, with crashes also between the two writes of an election |
| RaftSafety.LogMatching | src/raft/rpc.go:112-162 | two logs, of any servers at any times, that agree on the term at an index agree on everything up to it; entry i carries Index i |
| RaftSafety.Complete | src/raft/rpc.go:42-51 | an entry of a term that a majority held is in the log of every later leader on record |
| RaftSafety.LeaderCompleteness | src/raft/rpc.go:25-52 | an entry of a term that a majority held, each at some moment while in that term, is in the log of whoever leads any later term |
| RaftCommit.AcceptSafe | src/raft/rpc.go:154-170 | an accepted message neither removes nor skips a committed entry |
| RaftCommit.AdvanceSafe | src/raft/raft.go:279-293 | a leader whose matchIndex is true commits only what a majority held in its term |
| RaftBelief.NewAck | src/raft/rpc.go:152-171 | a successful reply is true: its sender held, in the leader's term, every entry of that term it confirms |
| RaftBelief.ActKeepsAcks | src/raft/rpc.go:92-172 | no step makes a reply on its way false |
| RaftBelief.NotedBeliefs | src/raft/raft.go:374-378 | a leader that notes a reply believes only what is true of everyone, if it did before or if there are at most two servers |
| RaftBelief.BeliefsStay | src/raft/raft.go:344-380 | a leader whose matchIndex is true keeps it true through every step while it leads |
| RaftBelief.WinnerBeliefs | src/raft/raft.go:229-236 | a winner with no other server's matchIndex beyond its log starts with true beliefs |
| RaftBelief.RunBeliefs | src/raft/raft.go:207-247 | if all winners are fresh, every leader's matchIndex is true at all times |
| RaftBelief.OnlyVotesCrown | src/raft/raft.go:225-236 | no step but counting a vote makes anyone a leader |
| RaftBelief.ResetIsFresh | src/raft/raft.go:36-38 | a reset of matchIndex on every win makes all winners fresh |
| RaftCommit.ActKeepsSafe | src/raft/raft.go:279-293 | every step keeps all commit indices anchored in majorities and the applier in step with the log, if leaders' beliefs are true or there are at most two servers |
| RaftCommit.StateMachineSafety | src/raft/raft.go:279-293 | with fresh winners or at most two servers, two servers, at any two times, hold the same entries at every index at or below both commit indices, and commit nothing outside their logs |
| RaftExact.SafeExactly | src/raft/raft.go:229-236 | no run has two servers commit different entries at an index, at any two times, if and only if matchIndex is reset on a win or there are at most two servers |
| RaftCommit.AppliedInOrder | src/raft/raft.go:443-483 | with fresh winners or at most two servers, what one incarnation delivered is its log from index 1 on, at most through its commit index, and of any two servers one delivered a prefix of the other |
| RaftApply.AppliedWithSnapshots | src/raft/raft.go:443-483 | in every such run, a server that takes snapshots of what was delivered to it, also mid-batch, delivers exactly the entries of its log in the run, from where it started to where it stands |
| RaftCommit.LeaderCommitCovered | src/raft/rpc.go:76-90 | with fresh winners or at most two servers, no message carries a LeaderCommit beyond its PrevLogIndex plus its entries |
| RaftFresh.FreshExactly | src/raft/raft.go:229-236 | at every win of every run, the winner's beliefs stay true in every continuation in which it leads if and only if no other server's matchIndex is beyond its log |
| RaftStale.Elect | src/raft/raft.go:207-247 | a server that all but one would vote for comes to lead, with everyone in its term and nothing else changed |
| RaftStale.Replicate | src/raft/raft.go:334-379 | a leader brings its log to all but one and notes it, and commits its last entry if that is of its term and a majority's |
| RaftStale.StaleMatchIndexBreaksSafety | src/raft/raft.go:229-236 | for every cluster of three servers or more there is a run without crash, loss, repetition or timeout of a leader in which servers 0 and 2 commit different entries at index 2 |
| RaftDelivery.DeliverOne | src/raft/rpc.go:92-172 | one message of a leader, accepted or not, costs a follower nothing it shares with that leader |
| RaftDelivery.NeverShorter | src/raft/rpc.go:112-162 | no sequence of one leader's messages, reordered or repeated, shortens what a follower shares with the leader's log |
| RaftDelivery.AcceptedStays | src/raft/rpc.go:112-162 | once a message is accepted, its prefix and all its entries stay, whatever other messages of that leader follow |
| RaftCompaction.HandlesSame | src/raft/raft.go:124-141 | on each event the compacted server gives the answer of the full one and still refines it |
| RaftCompaction.WfKept | src/raft/raft.go:124-141 | no allowed event, snapshots included, leaves a server without an entry it is still to deliver |
| RaftCompaction.AllAnswered | src/raft/raft.go:124-141 | a history whose events pass their own guards is answered to the end |
| RaftCompaction.CompactionRefines | src/raft/raft.go:124-141 | for every history of events with snapshots at delivered indices, also mid-batch, votes, replies, entries sent and batches applied are those of the full log, and all of them if the events pass their guards |
| RaftCompaction.BatchesInOrder | src/raft/raft.go:454-480 | across all batches, with any snapshots between or inside them, indices go up by one from the first not yet delivered |
| RaftCompaction.SnapshotsDeliverTheLog | src/raft/raft.go:454-480 | as long as no committed entry is lost, the batches of a server with snapshots are the full log after its starting index |
| RaftPeer.Persister.SaveStateAndSnapshot | src/raft/persister.go:54-61 | the state is replaced, the snapshot only if there is one |
| RaftPeer.InitialIndices | src/raft/raft.go:568-569 | nextIndex is one past the log and matchIndex zero for every peer |
| RaftPeer.Raft.constructor | src/raft/raft.go:538-580 | a server starts from what was persisted, with the lock's invariant |
| RaftPeer.Raft.Persist | src/raft/raft.go:99-102 | term, vote and log are on disk, the snapshot is untouched |
| RaftPeer.Raft.ElectionTimeout | src/raft/raft.go:420-428 | the node, the two durable writes and the request are those of the specification |
| RaftPeer.Raft.RequestVote | src/raft/rpc.go:25-52 | node, writes in order and reply are those of the specification, on every branch |
| RaftPeer.Raft.OnVoteReply | src/raft/raft.go:221-243 | counting, winning, stepping down or ignoring, as specified without the reset |
| RaftPeer.Raft.AppendEntries | src/raft/rpc.go:92-172 | node, writes and reply are those of the specification, on every branch |
| RaftPeer.Raft.ScanConflict | src/raft/rpc.go:142-145 | the loop returns the specified conflict index |
| RaftPeer.Raft.Junction | src/raft/rpc.go:155-157 | the loop finds the first entry that the log lacks or holds with another term |
| RaftPeer.Raft.TakeEntries | src/raft/rpc.go:154-162 | the entries are merged into the log, which is persisted exactly when it changed |
| RaftPeer.Raft.AcceptEntries | src/raft/rpc.go:164-170 | the commit index becomes the smaller of LeaderCommit and the last index, and never goes back |
| RaftPeer.Raft.Start | src/raft/raft.go:170-193 | a leader appends, persists and answers the new index; others answer false |
| RaftPeer.Raft.NextRound | src/raft/raft.go:298-336 | which of the three rounds is due, and the message of an append round |
| RaftPeer.Raft.OnAppendReply | src/raft/raft.go:344-379 | step down, back up, or match and commit, as specified |
| RaftPeer.Raft.ScanBackUp | src/raft/raft.go:361-372 | the loop finds the last entry of the reported term before prevLogIndex, or keeps the conflict index |
| RaftPeer.Raft.AdvanceCommitIndexForLeader | src/raft/raft.go:279-293 | commits the majority index if it is new and of the current term |
| RaftPeer.Raft.TakeBatch | src/raft/raft.go:454-457 | the batch is the log after lastApplied through commitIndex |
| RaftPeer.Raft.BatchDone | src/raft/raft.go:475-481 | lastApplied only moves forward |
| RaftPeer.Raft.Snapshot | src/raft/raft.go:124-141 | the log from index on, its first command emptied, or nothing if the index is out of range |
| RaftPeer.CrashAndRestart | src/raft/raft.go:561-562 | a restart keeps term, vote and log, and forgets the role and the commit index beyond the snapshot |
| RaftDuties.CommitRule | src/raft/raft.go:279-293 | a leader commits the greatest index that a majority has reached if it is new, in its log and of its own term; otherwise nothing changes |
| RaftDuties.StartDuty | src/raft/raft.go:170-193 | a leader answers the index and the term at which the command now ends its log, which is saved; anyone else answers (-1, -1, false) and nothing changes |
| RaftDuties.StartedCommand | src/raft/raft.go:191-192 | in every run, an entry of the answered term at the answered index, in any log at any time, is the caller's command |
| RaftDuties.VoteDuty | src/raft/rpc.go:25-52 | a vote is granted exactly to a candidate of no earlier term with a log no worse, if the vote of that term is free or its own; the reply carries the voter's term, and a larger term alone frees the vote |
| RaftDuties.StandDuty | src/raft/raft.go:420-428 | a candidate asks with the next term and the end of its log, and saves the term with the old vote before its own |
| RaftDuties.VoteReplyDuty | src/raft/raft.go:221-243 | more than half of the votes make a leader; a refusal with a larger term makes a follower of that term without a vote, on disk; nothing else counts |
| RaftDuties.MessageDuty | src/raft/rpc.go:76-90 | a message carries the leader's term and commit index, the term at prev, and every entry after it |
| RaftDuties.AppendDuty | src/raft/rpc.go:98-151 | a message is accepted exactly when its term is no earlier and its previous entry is in the log; a refusal points one past the log if that is too short and one past PrevLogIndex if the terms differ |
| RaftDuties.AcceptDuty | src/raft/rpc.go:152-171 | after an accepted message every index it covers has its entry or an old one of the same term, nothing below changes, and the commit index is the larger of its own and what the message and the log allow |
| RaftDuties.CatchesUp | src/raft/rpc.go:76-171 | a follower that accepts what a leader sends has the leader's terms from there on and has committed all that the leader has |
| RaftDuties.AppendReplyDuty | src/raft/raft.go:344-380 | a success is noted and what a majority then has is committed; a refusal moves nextIndex to the last entry of the reported term before PrevLogIndex, or to the conflict index; a larger term makes a follower |
| RaftDuties.BackUpIs | src/raft/raft.go:361-372 | the scan finds the greatest index of the reported term, or keeps the conflict index if there is none |
| RaftDuties.RestartDuty | src/raft/raft.go:561-575 | a restarted server has what was saved, nothing committed beyond its snapshot, and would begin as leader with an empty message at its last entry |
| RaftDuties.SnapshotDuty | src/raft/raft.go:124-141 | in range the log starts at the index with its old term and no command and is otherwise as before; out of range nothing changes |
| RaftDuties.SnapshotRestart | src/raft/raft.go:136-139 | a restart from the saved state has committed and applied exactly through the snapshot |
| Bitset.CanonSet | src/porcupine/bitset.go:29-33 | setting a bit gives the one bitset of the set with that element added |
| Bitset.CanonClear | src/porcupine/bitset.go:35-39 | clearing a bit gives the one bitset of the set without that element |
| Bitset.CanonInjective | src/porcupine/bitset.go:62-72 | equal words stand for equal sets |
| Bitset.NewBitset | src/porcupine/bitset.go:10-17 | the empty set, with just enough words |
| Bitset.Clone | src/porcupine/bitset.go:19-23 | a new array with the same words |
| Bitset.Set | src/porcupine/bitset.go:29-33 | in place, the set gains the element and no other word changes |
| Bitset.Clear | src/porcupine/bitset.go:35-39 | in place, the set loses the element and no other word changes |
| Bitset.Get | src/porcupine/bitset.go:41-44 | true exactly for members |
| Bitset.PopCountIsSize | src/porcupine/bitset.go:46-52 | the bits set are as many as the members of the set |
| Bitset.CountBits | src/porcupine/bitset.go:46-52 | the number of bits set in all words, which is the size of the set they stand for |
| Bitset.Hash | src/porcupine/bitset.go:54-60 | a function of the words alone, so equal bitsets have equal hashes |
| Bitset.HashMeans | src/porcupine/bitset.go:46-60 | the hash of a set is its size, with bit j turned over once for each member on bit j of its word |
| Bitset.Equals | src/porcupine/bitset.go:62-72 | true exactly when lengths and words agree |
| EntryList.Bridged | src/porcupine/checker.go:159-167 | bridging over a node leaves a correct list of the others, and the node still knows its place |
| EntryList.Restored | src/porcupine/checker.go:169-177 | a node that knows its place is put back exactly there |
| EntryList.InsertBefore | src/porcupine/checker.go:70-81 | the new node stands before the mark in a correctly linked list |
| EntryList.Length | src/porcupine/checker.go:83-90 | the number of nodes |
| EntryList.MakeLinkedEntries | src/porcupine/checker.go:121-138 | one node per event, in order, each call matched with the next return of its operation, or with nothing |
| EntryList.Lift | src/porcupine/checker.go:159-167 | the list is the original minus the operation, whose nodes keep their pointers; nodes already out are untouched |
| EntryList.Unlift | src/porcupine/checker.go:169-177 | the list is the original again; nodes still out are untouched |
| EntryList.LiftUnlift | src/porcupine/checker.go:159-177 | unlift undoes lift: every pointer of every node is as before |
| Search.Pushed | src/porcupine/checker.go:198-207 | going on to a new configuration keeps the walk's invariant |
| Search.Popped | src/porcupine/checker.go:235-241 | going back keeps it: everything from the configuration left behind has been tried |
| Search.AllCovered | src/porcupine/checker.go:200 | when the walk is over, every partial linearization ends in a visited configuration; pruning by the table loses none |
| Search.Exhausted | src/porcupine/checker.go:215-217 | when the walk is over there is no complete linearization |
| Search.InUniverse | src/porcupine/checker.go:190-243 | every configuration the walk can reach lies in one finite set, which bounds it |
| Search.RecordedIsLongest | src/porcupine/checker.go:218-234 | when the walk is over, the record of an operation is a longest partial linearization with it, or there is none |
| Checker.CacheContains | src/porcupine/checker.go:145-152 | the bucketed look-up agrees with a search through all entries |
| Checker.CacheAdd | src/porcupine/checker.go:201-202 | exactly one entry is added, in the bucket of its hash |
| Checker.TabledCovers | src/porcupine/checker.go:145-152 | the table has an equal bitset with an equal state exactly when the configuration is covered by a visited one |
| Checker.RecordLongest | src/porcupine/checker.go:219-234 | each operation on the stack gets the stack as its record if that is longer than the one it has; no other record changes |
| Checker.FillLongest | src/porcupine/checker.go:244-251 | every operation gets the complete linearization |
| Checker.Prepare | src/porcupine/checker.go:180-189 | the search starts from the whole list, the empty set and the initial state |
| Checker.Descend | src/porcupine/checker.go:201-207 | table, stack, bitset, state and list move together to a configuration not visited before |
| Checker.TryCall | src/porcupine/checker.go:194-213 | a call is taken if it leads somewhere new and passed over otherwise; either way the search makes progress |
| Checker.Retreat | src/porcupine/checker.go:218-241 | stack, state, bitset and list are as before the last call, which is passed over |
| Checker.CheckSingle | src/porcupine/checker.go:179-253 | for a reflexive Equal: terminates, true only if the history is linearizable, and every record is a linearization with its operation (none are kept if none are asked for); if Step respects Equal, true exactly when it is linearizable, and otherwise every record is a longest one or there is none |
| Sorting.Sorts | src/porcupine/checker.go:58 | the result is a sorted rearrangement, for every strict weak order |
| History.MakeEntries | src/porcupine/checker.go:48-60 | the calls and returns of the operations with their values, times and clients, in order of time, calls first on a tie |
| History.CallReturnOrder | src/porcupine/checker.go:39-46 | a return stands before a call exactly when its time is strictly smaller |
| History.EventsPaired | src/porcupine/checker.go:48-60 | operations with Call at most Return give a history in which each operation is called once and then returns once |
| History.EventsMean | src/porcupine/checker.go:29-60 | the events are linearizable exactly when the operations have an order that respects real time and that the model accepts |
| History.CheckHistory | src/porcupine/checker.go:369-371 | one part of a history: true only if linearizable, and exactly then if Step respects Equal |
| History.CheckParts | src/porcupine/checker.go:291-304 | the verdict over all parts: true only if every part is linearizable, and exactly then if Step respects Equal |
| KvModel.WholeAfter | src/models/kv.go:35-57 | after any operations on the whole map, a key's value is what its own operations leave |
| KvModel.WholeAccepted | src/models/kv.go:40-57 | the map accepts an order exactly when every key accepts its part of it |
| KvModel.RealTimeIffPoints | src/porcupine/checker.go:39-46 | an order respects real time exactly when each operation can be given a moment between its call and its return, in that order |
| KvModel.MergeKeys | src/models/kv.go:18-34 | linearizations of distinct keys merge into one order that has all their moments and restricts to each of them |
| KvModel.Locality | src/models/kv.go:18-57 | a history is linearizable against the whole map if and only if each key's part is against that key |
| KvMeaning.ValueAfter | src/models/kv.go:35-57 | the state after any operations on one key is the value of the last put, or nothing, with everything appended since, by either kind of append |
| KvMeaning.AcceptedMeans | src/models/kv.go:40-57 | an order of one key's operations is accepted exactly when every get and every append with return value outputs that value for the operations before it |
| KvMeaning.WholeMeans | src/models/kv.go:18-57 | linearizable against the whole map means that some order true to real time tells every reader what the puts and appends to its key leave |
| KvCheck.Group | src/models/kv.go:19-23 | the keys that occur, each with its operations in the order of the history |
| KvCheck.Partition | src/models/kv.go:18-34 | one part per key that occurs, keys in order, each part the key's operations in the order of the history |
| KvCheck.StringLessMeans | src/models/kv.go:28 | keys are ordered by the first character in which they differ, a prefix first |
| KvCheck.CheckOperations | src/porcupine/porcupine.go:5-8 | for a non-empty history with Call at most Return, true exactly when it is linearizable against the whole map, that is, when some order true to real time tells every reader what the puts and appends to its key leave |
| Visualizer.CollectValues | src/porcupine/visualization.go:40-53 | the input and output of every operation |
| Visualizer.Replay | src/porcupine/visualization.go:62-78 | reaches the panic exactly when the model refuses a step; otherwise gives the states along the way |
| Visualizer.Distinguish | src/porcupine/checker.go:323-336 | exactly the linearizations on record, longest first |
| Visualizer.Largest | src/porcupine/visualization.go:55-79 | for each operation that occurs, the index of a longest listed linearization with it |
| Visualizer.Visualize | src/porcupine/visualization.go:33-87 | for a reflexive Equal the panic is unreachable and every listed linearization is shown with the state after each of its steps; if Step respects Equal, what is marked largest for an operation is a longest partial linearization among all that contain it |
| KvServer.KVServer.constructor | src/kvsrv/server.go:120-128 | an empty map and an empty table |
| KvServer.KVServer.ConfirmRegion | src/kvsrv/server.go:32-37 | the result is forgotten, nothing else changes |
| KvServer.KVServer.GetRegion | src/kvsrv/server.go:41-50 | the result on file, or else the value now; nothing changes |
| KvServer.KVServer.FileRegion | src/kvsrv/server.go:53-56 | the result is on file |
| KvServer.KVServer.RecallRegion | src/kvsrv/server.go:72-78 | the result on file, if any |
| KvServer.KVServer.PutRegion | src/kvsrv/server.go:81-86 | the key has the new value, the old one is replied and on file |
| KvServer.KVServer.AppendRegion | src/kvsrv/server.go:112-117 | the key has the longer value, the old one is replied and on file |
| KvServer.KVServer.Handle | src/kvsrv/server.go:25-118 | an uninterrupted handler executes an unknown request, answers a known one from the table without executing it, and leaves its reply on file |
| KvSafety.EffectIsStep | src/kvsrv/server.go:42-57 | the effect of a call is the model's step on the map and its result is the one the model demands |
| KvSafety.ActKeepsInv | src/kvsrv/server.go:25-118 | every region of every handler, every loss and every move of a clerk keeps the invariant |
| KvSafety.RunInv | src/kvsrv/server.go:25-118 | the invariant holds in every state of every run |
| KvSafety.ServiceLinearizable | src/kvsrv/client.go:36-86 | at every moment of every run, what the callers recorded, completed with the calls in effect and under way, is linearizable against the map |
| KvSafety.QuiescentLinearizable | src/kvsrv/client.go:36-86 | when every call has returned, the record is linearizable and the table is empty |
| KvSafety.ExactlyOnce | src/kvsrv/server.go:41-57 | no request takes effect twice, and the calls that returned are the effects marked as returned, with the same results |
| KvSafety.StatusUnconfirmed | src/kvsrv/server.go:22 | the table only holds the result of a call that took effect and is not yet confirmed |
| KvSafety.CheckRecord | src/kvsrv/test_test.go:298-299 | the checker accepts the record of every run in which all calls have returned |

## Left out

- Liveness, timers, randomized timeouts and the progress of conflict back-up: they depend on real time, and the hint at `src/raft/rpc.go:142-147` does not guarantee progress.
- InstallSnapshot and CondInstallSnapshot: `src/raft/raft.go:154-159` keeps a suffix by index without comparing terms and can run in the middle of a batch. The global theorems are for runs in which no snapshot is installed.
- RaftPeer.Raft.Snapshot: requires an index at or below commitIndex, because a service snapshots what was delivered to it; the source does not check this.
- RaftPeer.Raft.AppendEntries: requires entries whose Index follows PrevLogIndex, as those of every message a server sends do; on others the source overwrites at the index they carry, or panics.
- RaftPeer.Raft.TakeEntries: the same condition on its entries.
- RaftPeer.Raft.Junction: the same condition on its entries.
- RaftPeer.Raft.AcceptEntries: the same condition on its entries.
- RaftCompaction.HandlesSame: does not compare nextIndex. The scan at `src/raft/raft.go:364-371` stops at the first index of the log, so after a snapshot it can end elsewhere; nextIndex only chooses the PrevLogIndex of the next message, which is an argument of the Send event.
- RaftCompaction.CompactionRefines: does not compare nextIndex, for the same reason.
- RaftApply.AppliedWithSnapshots: the rest of the cluster keeps its whole logs; the messages the server gets must not start below its own first index, where it would need an installed snapshot.
- RaftCommit.StateMachineSafety: for three servers or more it assumes `FreshWins`; without it the code does not have the property (`RaftExact`).
- Every message stays deliverable for ever in `RaftProtocol`, and a leader can time out, which allows more runs than the network and the timers do.
- Condition variables, goroutine scheduling and lock contention: each locked region is one step.
- Commands are an integer payload or nil; gob encoding is the identity.
- `src/labrpc` and `src/labgob`, except that a call runs its handler at most once, that a handler has finished before its call fails, and that a field that is zero does not overwrite.
- Checker.CheckSingle: the kill flag is never set, Equal is reflexive, and a record is a value, so that two operations sharing one slice by pointer is not visible.
- Visualizer.Distinguish: removes equal records where the source removes equal pointers.
- The timeout and the goroutines of checkParallel: the parts are checked one after the other. With no part the source blocks, hence the non-empty history.
- Operations whose Return is before their Call, and the entry points on event lists (`renumber`, `convertEntries`, PartitionEvent).
- The randomness of request ids: an id is assumed to be new when it is drawn.
- A server that is deleted or disabled while a key/value call is under way.
- The HTML and JSON of the visualizer.
- `src/mr`, `src/mrapps`, `src/main`: file and RPC plumbing around a coordinator without a reduce phase.
- `src/raft/gradient.go` and the gradient entry points: they average vectors of float32 and count what was applied, beside the log and not part of it.
- `src/kvraft`, `src/shardctrler`, `src/shardkv`: skeletons without handlers.
