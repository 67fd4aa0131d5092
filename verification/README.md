# A verified model of the fault-tolerant services

This Dafny project models the five hard components of the repository and proves, for every run or
every input, what each is for.

* **Raft** (`src/raft/raft.go`): `RaftServer` gives every critical section as a function of the
  peer's state, `RaftNode` is the peer as an object whose methods run the code's own loops and are
  proved equal to those functions, `RaftCluster` is the step system (lost, delayed, reordered and,
  for appends, repeated messages; crashes; restarts from the persister). `RaftCore` holds the
  argument of section 5.4 of "In Search of an Understandable Consensus Algorithm (Extended
  Version)" over a recorded history; `RaftElection`, `RaftSafety` and `RaftReplication` show that
  every step keeps the invariants; `RaftTheorems` states what follows for runs. `RaftService` puts a
  service on every peer. `RaftWitness`, `RaftSnapshotRun` and `RaftCommitRun` are runs written out
  step by step.
* **The linearizability checker** (`src/porcupine`, `src/models/kv.go`): `Linearizability` defines
  what the verdict has to be, `Bitset`, `Checker` and `CheckSingle` run the code on its bit words,
  its doubly linked list and its cache, `Search` holds the invariants of the search, `KvHistory`
  and `CheckOperations` the split by key, the sorting by time, the collecting of verdicts, and the
  whole check put together.
* **Sharded storage** (`src/shardkv`): `ShardServer` and `ShardNode` are one group's replicated
  state as functions and as an object, `ShardConfig` the configurations, `ShardCluster` the groups
  together, where any proposal or answer may come from a server that is behind; `ShardGroups`,
  `ShardTokens`, `ShardContents` and `ShardSafety` are the invariants, `ShardTheorems` the results,
  and `ShardOverRaft` all of it on the Raft clusters of the groups.
* **Shard balancing and the replicated store** (`src/shardctrler`, `src/kvraft`): `ShardBalance`,
  `Counting` and `ShardCtrler`; `KvStore`, `KvClients`, `KvRaft` and `KvNode`; `KvOverRaft` is the
  service with its clients on the peers of `RaftCluster`, `CtrlOverRaft` the controller on its own,
  and `Delivery` the path from one peer's log through snapshots to its service.
* **MapReduce** (`src/mr`, `src/main/mrsequential.go`): `FileNames`, `MapReduce` and
  `MapReduceResult` are the data flow, `MrCoordinator`, `MrSafety`, `MrTheorems` and `MrFiles` the
  coordinator under every interleaving, `MrNode` the coordinator as an object, `MrJob` both together,
  `MrWorkers` the workers and their files in any interleaving with it, and `MrLateWorker` a run in
  which a late worker empties a file.

`Collections` and `Strings` hold what several components share. A Go `panic`, an index out of range
included, is an outcome of the model, never a precondition. Clocks, timers and random choices are
parameters or free choices of a step; encodings are a pair of functions that undo each other.

## Findings

* A report of a map task that has an unreadable file name after a readable one is refused, but the
  readable names stay on the reduce tasks' lists, and the retry lists them again
  (`MrFiles.RefusedReportDuplicates`). The lists are right exactly when no such report arrived in
  time (`MrFiles.ListsAcceptedIff`). The handler accepts such a report from anyone, but the workers
  of `src/mr/worker.go` never send one: their names are all readable.
* `checkParallel` with no partition at all never decides unless there is a timeout: it waits for a
  result nobody sends. `CheckOperations.Collect` says exactly when it waits forever.
* The sort in the reduce task and in the sequential program promises no order among equal keys. By
  the sort's contract, the sequential output itself is determined exactly when the reduce function
  does not look at the order of its values (`MapReduceResult.DeterminedIffOrderFree`).
* A map worker that was given up on may still be writing. Creating a file empties it, under the
  names of the execution that was accepted, and executions overlap. A file is complete exactly when
  every place of its bucket was written after the file was last created, whoever wrote it
  (`MrWorkers.FileIsCompleteIff`), and a reduce task gets all of a bucket exactly when that was so of
  each place at the moment it was read (`MrWorkers.AllIsReadIff`). `MrLateWorker.LateWorkerTruncates`
  is a run of the whole job in which it was not: the job is done, and its output is empty.
* The comment at `src/porcupine/checker.go:64` has call and return the wrong way round; the model
  follows the code.
* A follower answers success to a request that starts behind its snapshot without storing anything.
  An answer of success means that the entries are there exactly when the request does not start
  behind the snapshot, or they were there already (`RaftTheorems.SuccessMeansStoredIff`).
  `RaftSnapshotRun.MatchedButNotStored` is a run of three peers in which a leader has committed an
  entry that it believes on a follower that does not have it, and
  `RaftSnapshotRun.SnapshotBreaksSafety` carries that run on until two services have executed
  different commands at one index. The results on logs, commitment and the service over the cluster
  are therefore stated for runs in which no service takes snapshots; election safety and the
  delivery on one peer are not restricted so.
* A follower's commit index after new entries is at most one beyond the previous index and may move
  down (`RaftTheorems.CommitLoweredIff` says exactly when, `RaftCommitRun.CommitLowered` is a run).
  The safety results hold with it.
* `InstallSnapshot` may return early with a raised term that is not on disk
  (`RaftTheorems.TermUnsavedIff`). It takes a leader without an entry that the follower's snapshot
  covers, so the run that shows it, `RaftSnapshotRun.TermUnsaved`, goes on where safety was broken.
  Election safety is proved with that step included.
* A cluster of one peer never has a leader, because votes are counted only when a reply arrives.
  A cluster can have a leader exactly when it has two peers or more (`RaftWitness.LeaderIffTwoPeers`).

## Model

| member | source | states |
|---|---|---|
| `RaftElection.ElectionSafety` | src/raft/raft.go:349-392 | In every run, with crashes, restarts, snapshots and term raises that are not persisted, two peers that are leader of the same term, at any two times, are the same peer |
| `RaftElection.StepKeepsElectionInv` | src/raft/raft.go:831-930 | Every step of the cluster keeps: votes in memory and on disk agree with the votes cast, a candidate's counter counts distinct voters of its term, a leader had a majority, and no vote call is counted twice |
| `RaftElection.WinnerIsOnly` | src/raft/raft.go:873-890 | A majority of votes for one candidate of a term rules out any other winner of that term |
| `RaftElection.GrantStands` | src/raft/raft.go:349-392 | A vote granted again in the same term, also after a restart, goes to the same candidate, and no recorded vote is ever changed |
| `RaftElection.OnePeerNeverLeads` | src/raft/raft.go:873-890 | In every run of a cluster of one peer, that peer is never leader |
| `RaftWitness.LeaderIffTwoPeers` | src/raft/raft.go:873-890 | A cluster of n peers has a run in which some peer is leader exactly when n is at least two; the run is written out |
| `RaftElection.CrashKeepsInv` | src/raft/raft.go:166-208 | A crash and restart from the persisted term, vote and log keeps the election invariant |
| `RaftTheorems.StateMachineSafety` | src/raft/raft.go:933-983 | In every run without service snapshots, two peers that apply a command at the same index, at any times, apply the same command |
| `RaftTheorems.LeaderCompletenessInRuns` | src/raft/raft.go:349-392 | What a peer has marked committed agrees with the log of every leader of the same or a later term from then on |
| `RaftTheorems.LogMatchingInRuns` | src/raft/raft.go:427-541 | Logs of any peers at any times that hold the same term at an index are equal up to and including it |
| `RaftTheorems.LogTermsNeverDecrease` | src/raft/raft.go:577-604 | Along every peer's log, in every state of a run, terms never decrease |
| `RaftTheorems.MatchIndexMeansStored` | src/raft/raft.go:755-764 | If a leader's matchIndex for a peer reaches an index, that peer had, in that leader's term, the leader's log through the index |
| `RaftTheorems.NoPanicInRuns` | src/raft/raft.go:468-486 | No step of a run without service snapshots reaches any panic of raft.go |
| `RaftTheorems.BackOffProgressInRuns` | src/raft/raft.go:722-754 | A rejection of the probe at the current nextIndex strictly lowers nextIndex and never takes it below 1 |
| `RaftTheorems.CommitRuleInRuns` | src/raft/raft.go:986-1026 | In every run without service snapshots, a leader that takes a reply of success moves its commit index to exactly the highest index of its own term above it that a majority holds, and leaves it if there is none |
| `RaftTheorems.SuccessMeansStoredIff` | src/raft/raft.go:468-509 | After an answer of success every entry of the request is in the follower's log or covered by its snapshot, if and only if the request does not start behind the snapshot or this was so before |
| `RaftTheorems.CommitLoweredIff` | src/raft/raft.go:511-517 | A request lowers the follower's commit index if and only if it is accepted, names a higher one, and its own reach ends below the present one |
| `RaftCommitRun.CommitLowered` | src/raft/raft.go:511-517 | A run of three peers without snapshots whose last step, a request overtaken by a later one, takes a follower's commit index from 2 to 1 |
| `RaftTheorems.TermUnsavedIff` | src/raft/raft.go:640-649 | InstallSnapshot leaves a term in memory that is not on disk if and only if the request has a higher term and no newer snapshot |
| `RaftSnapshotRun.MatchedButNotStored` | src/raft/raft.go:757-763 | A run of three peers, with every step enabled, in which a leader's matchIndex for a follower and its commit index are 2 while the follower's last index is 1 |
| `RaftSnapshotRun.SnapshotBreaksSafety` | src/raft/raft.go:472-474 | The run goes on to a new leader without that entry, and two peers deliver different commands with index 2 |
| `RaftSnapshotRun.TermUnsaved` | src/raft/raft.go:640-649 | The run of SnapshotBreaksSafety goes on: both leaders snapshot what they applied, the new one sends its snapshot, and the old one ends with term 2 in memory and term 1 on disk |
| `RaftTheorems.StepKeepsLogInv` | src/raft/raft.go:442-541 | Every step without service snapshots keeps the log invariant and only extends the recorded history |
| `RaftCore.LogMatching` | src/raft/raft.go:487-509 | Two logs made of leaders' entries that hold the same term at an index agree through it |
| `RaftCore.LeaderCompleteness` | src/raft/raft.go:349-392 | A prefix held by a majority, ending in an entry of its leader's own term, is in the log of every later leader |
| `RaftCore.ChosenAgree` | src/raft/raft.go:986-1026 | Any two chosen prefixes agree as far as both reach |
| `RaftCore.UpToDateHas` | src/raft/raft.go:374-383 | A candidate's log that passes the voter's check has what the voter's log has of an earlier leader's own entries, or the leader of its last term started without it |
| `RaftCore.StartCampaignKeepsInv` | src/raft/raft.go:831-840 | Starting a campaign, with the vote for oneself, keeps the core invariant |
| `RaftCore.CastBallotKeepsInv` | src/raft/raft.go:349-392 | Casting a vote for a candidate that passed the check keeps the core invariant |
| `RaftCore.ElectKeepsInv` | src/raft/raft.go:873-890 | Electing a candidate with the votes of a majority keeps the core invariant |
| `RaftCore.AppendKeepsInv` | src/raft/raft.go:577-604 | A leader appending an entry of its own term keeps the core invariant |
| `RaftCore.StoreKeepsInv` | src/raft/raft.go:487-509 | A follower storing the leader's log up to an index, unless it has it all, keeps the core invariant |
| `RaftReplication.CheckIsAgreement` | src/raft/raft.go:427-440 | The consistency check passes exactly when the follower's log agrees with the leader's through the previous index |
| `RaftReplication.MergeIsStore` | src/raft/raft.go:487-509 | Storing a slice of the leader's log leaves a log that had it all unchanged, and otherwise leaves exactly the leader's log through the last entry |
| `RaftReplication.AcceptedCommit` | src/raft/raft.go:511-517 | The follower's new commit index covers only what is chosen, for the log it ends up with |
| `RaftReplication.RejectIsTrue` | src/raft/raft.go:468-486 | A rejection never panics, and its hint is true of the follower's log and of the leaders' logs |
| `RaftReplication.HeartBeatIsSlice` | src/raft/raft.go:770-828 | What a leader sends is a slice of its own log with a commit index it vouches for, never a snapshot and never a panic |
| `RaftReplication.BackOffProgress` | src/raft/raft.go:722-754 | The next probe computed from a rejection is at least 1 and not above the rejected index, and the panic of this path is unreachable |
| `RaftReplication.CommitRule` | src/raft/raft.go:986-1026 | In one state with sorted terms not above the leader's: updateCommittedIndex never panics, never moves down, and moves to exactly the highest index of the current term that a majority holds |
| `RaftReplication.MajorityIsChosen` | src/raft/raft.go:986-1026 | An index of the leader's own term with a majority of matchIndex is chosen |
| `RaftReplication.ApplyIs` | src/raft/raft.go:933-983 | The apply loop never panics and delivers entries of the log no further than the commit index |
| `RaftService.ServicesFollowOneLog` | src/kvraft/server.go:247-286 | A deterministic service on every peer, in every run without service snapshots: there is one sequence of commands such that every service, at every time, holds what executing its first lastApplied commands gives, and the next message on its channel never makes it panic |
| `RaftService.ExecutedWasStarted` | src/raft/raft.go:577-604 | Every command a service has executed was handed to Start of some peer before |
| `RaftService.StepKeepsServed` | src/raft/raft.go:933-983 | Every step of a peer, a network message, a crash or a service keeps: channels carry the chosen commands from where the service is, and the executed commands only grow |
| `RaftService.StepKnows` | src/raft/raft.go:442-541 | No step puts a command in a leader's log that was in none before, except Start |
| `RaftServer.SearchFindsFirst` | src/raft/raft.go:549-563 | On a log whose terms never decrease, the binary search finds the first entry of term at least the given one, or the length of the log |
| `RaftNode.Raft.constructor` | src/raft/raft.go:1037-1076 | A new peer has the initial values and what its persister holds |
| `RaftNode.Raft.Persist` | src/raft/raft.go:147-162 | Term, vote, log and snapshot in memory are on disk afterwards, and nothing else changes |
| `RaftNode.Raft.ElectionTimeout` | src/raft/raft.go:831-930 | The timer's branch starts a campaign of the next term and sends the request that describes the log |
| `RaftNode.Raft.RequestVote` | src/raft/raft.go:349-392 | The handler's new state and reply, in every branch, are those the cluster model uses |
| `RaftNode.Raft.VoteReturned` | src/raft/raft.go:858-891 | Counting a returned vote, and on a majority taking office with both index tables reset by loops |
| `RaftNode.Raft.FindFirstIndex` | src/raft/raft.go:549-563 | The in-place binary search: the first entry of at least the term on a log with non-decreasing terms |
| `RaftNode.Raft.CutConflict` | src/raft/raft.go:494-501 | The first loop cuts the log off from the first entry of another term on, and leaves it alone if there is none |
| `RaftNode.Raft.CopyEntries` | src/raft/raft.go:502-509 | The second loop copies the entries over the log and keeps what is beyond them |
| `RaftNode.Raft.StoreEntries` | src/raft/raft.go:487-509 | The two loops together leave the merged log |
| `RaftNode.Raft.ApplyEntries` | src/raft/raft.go:442-541 | The handler's new state, reply and panic, in every branch, are those the cluster model uses |
| `RaftNode.Raft.Start` | src/raft/raft.go:577-604 | A leader appends and persists the command and tells its index and term; any other peer refuses |
| `RaftNode.Raft.PrepareFor` | src/raft/raft.go:770-828 | What is sent to a peer: entries, a heartbeat at the own last index, or a snapshot |
| `RaftNode.Raft.MajorityHolds` | src/raft/raft.go:1000-1014 | The counting loop says yes exactly when more than half of the peers hold the index |
| `RaftNode.Raft.UpdateCommittedIndex` | src/raft/raft.go:986-1026 | The scan from the end of the term's entries sets the commit index the model says, or panics when the model does |
| `RaftNode.Raft.EntriesReturned` | src/raft/raft.go:706-767 | The new state after a reply, in every branch, is the one the cluster model uses |
| `RaftNode.Raft.ProbeRejected` | src/raft/raft.go:722-754 | After a rejection the peer gives up its term or moves nextIndex by the hint, or panics when the model does |
| `RaftNode.Raft.DropCovered` | src/raft/raft.go:236-255 | The in-place loop drops exactly the covered entries, keeps one as the new base, and persists |
| `RaftNode.Raft.Snapshot` | src/raft/raft.go:261-287 | A newer service snapshot is taken in, an older one ignored, and the indices never fall behind it |
| `RaftNode.Raft.InstallSnapshot` | src/raft/raft.go:625-671 | The handler's new state and reply, early returns included |
| `RaftNode.Raft.SnapshotReturned` | src/raft/raft.go:673-704 | The leader's index tables after an InstallSnapshot reply |
| `RaftNode.Raft.CollectCommands` | src/raft/raft.go:958-975 | The loop collects exactly the committed entries not yet applied, in order, or panics when the log ends before the commit index |
| `RaftNode.Raft.CollectCommitted` | src/raft/raft.go:933-983 | One round of the apply loop sends a pending snapshot first and then the commands |
| `Delivery.DeliveryIsGapFree` | src/kvraft/server.go:252-258 | One peer and its service, for every interleaving of timeouts, requests, replies, apply rounds, snapshots taken and installed, panics of handlers and restarts, with the provisos named below: a command reaching the service has the next index and is the committed one, and neither the apply loop nor the service panics |
| `Delivery.StateIsFold` | src/kvraft/server.go:307-365 | In those runs a service at applied index i holds the fold of the first i committed commands, however it got there |
| `Delivery.RoundIs` | src/raft/raft.go:933-983 | A round sends the pending snapshot, if any, and exactly the commands after what the service will then have |
| `Delivery.CompactKeeps` | src/raft/raft.go:236-287 | Handing Raft a snapshot the service encoded earlier loses nothing marked committed, even when it is overtaken |
| `Delivery.InstallKeeps` | src/raft/raft.go:625-671 | Installing a leader's snapshot keeps service and log in step, log kept or dropped |
| `Delivery.StepKeeps` | src/raft/raft.go:442-541 | Every handler, apply round, snapshot and restart keeps log, snapshot, channel and service in step with the committed commands |
| `Delivery.AcceptHolds` | src/raft/raft.go:487-517 | Storing a request's entries keeps every entry marked committed, and what the new commit index covers is committed, though the index may move down |
| `Delivery.AppendKeeps` | src/raft/raft.go:442-541 | The whole append handler keeps it, in every branch |
| `Delivery.AppendBackKeeps` | src/raft/raft.go:706-767 | A leader using a reply keeps it, a panic of the handler included |
| `Delivery.VoteKeeps` | src/raft/raft.go:349-392 | Voting keeps it |
| `Delivery.RebornIsOk` | src/kvraft/server.go:342-365 | Restarting Raft and service from the persister puts them in step again |
| `Linearizability.CompletesIffLinearizable` | src/porcupine/model.go:27-49 | Linearizing one operation after another, each time one that no other must precede, succeeds exactly when some order of all operations respects real time and is accepted step by step |
| `Bitset.SetAddsPosition` | src/porcupine/bitset.go:29-33 | Setting a bit adds exactly that position, whatever word it is in |
| `Bitset.ClearRemovesPosition` | src/porcupine/bitset.go:35-39 | Clearing a bit removes exactly that position |
| `Bitset.ClearUndoesSet` | src/porcupine/bitset.go:35-39 | Clearing a bit that was just set gives back the very same words |
| `Bitset.EqualIffSamePositions` | src/porcupine/bitset.go:62-72 | Words of the same length are equal exactly when they hold the same positions |
| `Bitset.NewBitset` | src/porcupine/bitset.go:10-17 | A new bitset has room for the positions asked for and holds none |
| `Bitset.Clone` | src/porcupine/bitset.go:19-23 | A fresh array with the same words |
| `Bitset.Set` | src/porcupine/bitset.go:29-33 | The words afterwards are the old ones with the one bit set |
| `Bitset.Clear` | src/porcupine/bitset.go:35-39 | The words afterwards are the old ones with the one bit cleared |
| `Bitset.CountOnes` | src/porcupine/bitset.go:46-52 | The number of positions held |
| `Bitset.PopCountIsSize` | src/porcupine/bitset.go:46-52 | Adding up the ones of the words gives the size of the set of positions |
| `Bitset.Hash` | src/porcupine/bitset.go:54-60 | The hash depends on the words only, so equal bitsets share a bucket |
| `Bitset.Equals` | src/porcupine/bitset.go:62-72 | True exactly for the same words |
| `Search.LiveIs` | src/porcupine/checker.go:190-243 | The entries left in the list are exactly the calls and returns of operations not yet linearized, in original order |
| `Search.CallIsFirst` | src/porcupine/checker.go:194-213 | A call reached past calls only may come next in real time |
| `Search.ReturnIsStuck` | src/porcupine/checker.go:214-243 | Reaching a return after failed calls means no linearization continues from here |
| `Search.PathFinishes` | src/porcupine/checker.go:244-252 | With the list empty, the operations on the stack are a linearization |
| `Search.HitIsDeadEnd` | src/porcupine/checker.go:198-210 | Skipping a pair found in the cache loses no linearization |
| `Search.PushKeepsCache` | src/porcupine/checker.go:200-207 | After a push every cached pair is still on the current path or a dead end |
| `Search.PopKeepsCache` | src/porcupine/checker.go:235-241 | After backtracking the abandoned pair is a dead end, so the cache stays sound |
| `Checker.InsertBefore` | src/porcupine/checker.go:70-81 | The new node comes right before the mark, and both directions of the list agree |
| `Checker.Length` | src/porcupine/checker.go:83-90 | The number of nodes of the list |
| `Checker.MakeLinkedEntries` | src/porcupine/checker.go:121-138 | The list holds the entries in order, every call matched with its own return |
| `Checker.Lift` | src/porcupine/checker.go:159-167 | The list without the call and its return is well linked, and both nodes still know where they were |
| `Checker.Unlift` | src/porcupine/checker.go:169-177 | Undoing the last lift restores exactly the list before it |
| `Checker.LiftOperation` | src/porcupine/checker.go:203-207 | Lifting a call in the search leaves the lists of all earlier levels restorable in stack order |
| `Checker.UnliftOperation` | src/porcupine/checker.go:235-241 | Unlifting the top of the stack gives back the list of the level below, node by node |
| `Checker.CacheContains` | src/porcupine/checker.go:145-152 | True exactly when an equal pair was ever cached: looking under the hash misses nothing |
| `Checker.AddToCache` | src/porcupine/checker.go:201-202 | The cache then holds the old pairs and the new one |
| `CheckSingle.CheckSingle` | src/porcupine/checker.go:179-253 | When not killed the search terminates for every well-formed history and answers true exactly when the operations can be linearized |
| `CheckSingle.SearchLoop` | src/porcupine/checker.go:190-243 | The loop terminates and decides the history from its starting state |
| `CheckSingle.TryCall` | src/porcupine/checker.go:194-213 | The branch for a call keeps the loop's invariant and makes progress: it skips, or caches a pair not cached before |
| `CheckSingle.Backtrack` | src/porcupine/checker.go:214-242 | The branch for a return keeps the loop's invariant and makes progress |
| `KvHistory.SplitByKey` | src/models/kv.go:18-57 | A history is linearizable against the map store exactly when the history of every key is against the single-value model |
| `KvHistory.KeysToWhole` | src/porcupine/model.go:28-31 | Linearizations of the keys can always be merged without breaking real-time order |
| `KvHistory.WholeToKeys` | src/porcupine/model.go:28-31 | A linearization of the whole restricts to one of every key |
| `KvHistory.Partition` | src/models/kv.go:18-34 | One part for every key that occurs, in the order of the keys, holding that key's operations in order |
| `KvHistory.PartitionDecides` | src/models/kv.go:18-34 | The history is linearizable exactly when every part Partition returns is |
| `CheckOperations.MakeEntries` | src/porcupine/checker.go:48-60 | A call and a return entry for each operation, with its times, input, output and number, sorted by time with calls before returns; whatever the sort promises and no more |
| `CheckOperations.OrderIsRealTime` | src/porcupine/checker.go:39-46 | After sorting, one operation's return stands before another's call exactly when it returned strictly before that call by the clock |
| `CheckOperations.SortedDecides` | src/porcupine/checker.go:365-373 | The search problem over the sorted entries can be finished exactly when the history is linearizable |
| `CheckOperations.CheckPartition` | src/porcupine/checker.go:365-373 | Whatever order the sort left among equal entries, the answer is true exactly when some permutation respects real time and is accepted by the model |
| `CheckOperations.Collect` | src/porcupine/checker.go:274-353 | Ok only if every partition is, Illegal only if one is not, Unknown only after a timeout, and no answer exactly when there is neither a timeout nor a decision |
| `CheckOperations.CheckKvOperations` | src/porcupine/checker.go:365-373 | The whole check of a key/value history, from the split by key to the verdict: Ok only if the history is linearizable against one map store, Illegal only if it is not, Unknown only after a timeout; and with no timeout, every partition answered and a history that is not empty, exactly the right one of Ok and Illegal |
| `KvStore.ExecutionLinearizes` | src/kvraft/server.go:247-286 | The order of execution is a linearization of the whole history of calls |
| `KvStore.StepIsEffect` | src/models/kv.go:40-57 | The checker's step has the service's effect and accepts the service's answer |
| `KvClients.StartKeepsClients` | src/kvraft/client.go:52-161 | Starting a call with the next number, one at a time per client, keeps what is known of all calls |
| `KvClients.ExecuteKeepsClients` | src/kvraft/server.go:247-286 | Executing a started call not executed before keeps it |
| `KvClients.RespondKeepsClients` | src/kvraft/server.go:108-123 | Answering from a table entry of that very call keeps it |
| `KvClients.ExecutedOnce` | src/shardkv/client.go:69-143 | An answered call has exactly one execution, of the very operation the client started, recorded with the time it was started, between its start and its answer |
| `KvClients.HistoryIsLinearizable` | src/shardkv/client.go:69-143 | The clients' calls, with the operations and times they were started with and the answers and times they were answered with, are linearizable against one store; a call without an answer may take effect at any time or never |
| `KvClients.LogIsHistory` | src/kvraft/client.go:52-161 | The record of executions is a history of exactly such calls: each entry is a started call with its own operation, start and answer, and every answered call has its entry |
| `KvRaft.KvIsLinearizable` | src/kvraft/server.go:71-123 | Over any append-only committed log that may hold started calls many times and late, the clients' calls, as started and answered, are linearizable against one store |
| `KvRaft.AnsweredOnce` | src/kvraft/server.go:247-286 | An answered call was executed exactly once, as the operation the client started and in its interval, and was given the result of that execution |
| `KvRaft.ServerIsAtPrefix` | src/kvraft/server.go:288-365 | Under Delivery's provisos, a server at LastApplied i holds the state after the first i committed operations, whatever mix of execution, snapshots and restarts got it there |
| `KvRaft.StepKeepsInv` | src/kvraft/server.go:247-286 | Every step keeps: duplicate tables hold only results of executed calls, and every started call is executed at most once |
| `KvOverRaft.ClusterIsOneStore` | src/kvraft/server.go:71-123 | Clients, servers and the peers' own messages together, with nothing assumed of the committed log: in every run without service snapshots the clients' calls are linearizable against one store |
| `KvOverRaft.EveryServerAtPrefix` | src/kvraft/server.go:247-286 | In those runs every server, at every time, holds the state after a prefix of the executed calls |
| `KvOverRaft.StepKeeps` | src/kvraft/server.go:71-123 | Every step of a client, a server or a peer keeps the peers' invariant, the service's, and that every command in a leader's log is a call some client has started |
| `KvNode.KVServer.ExecOp` | src/kvraft/server.go:247-286 | Panics exactly when the index is not the next; otherwise executes a new call, ignores an old one, and counts the entry |
| `KvNode.KVServer.ApplySnapshot` | src/kvraft/server.go:307-340 | Panics exactly on an index mismatch, ignores an older snapshot, and otherwise takes over data, table and index |
| `KvNode.KVServer.RestoreState` | src/kvraft/server.go:342-365 | A restart takes over the saved snapshot, or starts fresh |
| `KvNode.KVServer.Precheck` | src/kvraft/server.go:71-91 | An old call is answered exactly when it is the last one in the table, and refused when a newer one is |
| `KvNode.KVServer.Finish` | src/kvraft/server.go:102-123 | The handler goes on waiting exactly while the term is the same and the call not done, and answers only from that call's own entry |
| `ShardTheorems.ServiceIsLinearizable` | src/shardkv/client.go:69-143 | In every run of reconfigurations, retries and migrations, the clients' calls over all groups, as started and answered, are linearizable against one sequential store |
| `ShardTheorems.ExactlyOnce` | src/shardkv/server.go:420-484 | An answered call was executed exactly once over all groups, as the operation the client started, between start and answer, and its answer is the sequential store's |
| `ShardTheorems.ShardExclusive` | src/shardkv/server.go:486-563 | In every reachable state at most one group serves a shard |
| `ShardTheorems.ShardsAccounted` | src/shardkv/server.go:486-563 | What a group serves and what it waits for are disjoint and together exactly its shards of its configuration |
| `ShardTheorems.OneConfigAtATime` | src/shardkv/server.go:314-329 | A group moves one configuration number at a time, and only with nothing pending |
| `ShardTheorems.ShardNeverLost` | src/shardkv/server.go:511-533 | Once the first owner has started, the contents the sequential store has are with the serving group or parked with the last owner |
| `ShardTheorems.CollectedAfterInstall` | src/shardkv/server.go:367-404 | A parked copy is dropped only after the next owner has installed the shard |
| `ShardTheorems.AnswersFollowPlan` | src/shardctrler/server.go:416-443 | Whatever configuration a query was answered with, at any time, is the one of its number in the single plan the controller's later list of configurations makes, which is a plan the groups' theorems hold for |
| `ShardOverRaft.GroupsAreOneStore` | src/shardkv/client.go:69-143 | Clients, the servers of all groups and the messages between the peers of each, through reconfigurations and migrations, with nothing assumed of the groups' logs: in every run without service snapshots the clients' calls are linearizable against one store |
| `ShardOverRaft.EveryServerInTrace` | src/shardkv/server.go:420-443 | In those runs every server of a group is, at every time, in the state its group was in after as many commands |
| `ShardOverRaft.StepKeeps` | src/shardkv/server.go:420-578 | Every step of a client, a server or a peer keeps the groups' invariant, and that every command in a leader's log is one that a server of its group may propose |
| `ShardOverRaft.StillProposes` | src/shardkv/server.go:314-404 | What a server may propose it may still propose later, however much the groups and clients have gone on |
| `ShardSafety.StepKeepsInv` | src/shardkv/server.go:420-578 | Every step of clients and groups keeps the invariant of ownership, contents and duplicate tables |
| `ShardContents.RunIsNew` | src/shardkv/server.go:444-484 | A call the serving group executes was never executed before, and its answer is the sequential store's |
| `ShardContents.InstallKeepsHeld` | src/shardkv/server.go:536-563 | Installing what the old owner answered, from whatever state it was in, takes over the current contents and every duplicate entry |
| `ShardContents.LoseKeepsHeld` | src/shardkv/server.go:511-533 | Losing a shard parks its current contents |
| `ShardTokens.MoveKeepsToken` | src/shardkv/server.go:486-533 | When a group moves to a configuration, each shard still has exactly one place |
| `ShardTokens.InstallMovesToken` | src/shardkv/server.go:536-563 | When a group installs a shard, its one place moves from the old owner's parking to the group |
| `ShardGroups.ConfigKeepsGroup` | src/shardkv/server.go:486-533 | Applying a configuration keeps what a group records about its shards, requests and parked copies |
| `ShardGroups.InstallKeepsGroup` | src/shardkv/server.go:536-563 | Installing a shard keeps it too |
| `ShardNode.ShardKV.constructor` | src/shardkv/server.go:757-808 | A new server serves nothing, in configuration 0 |
| `ShardNode.ShardKV.ExecCommand` | src/shardkv/server.go:420-443 | The next command of the log changes the state as the model says; one that is not the next panics and changes nothing |
| `ShardNode.ShardKV.ExecOperation` | src/shardkv/server.go:444-484 | A client operation: wrong group, duplicate or executed |
| `ShardNode.ShardKV.ExecApplyConfig` | src/shardkv/server.go:486-533 | The loops over shards and keys leave the configuration, served shards, requests, data and parked copies of the model |
| `ShardNode.ShardKV.CompareShards` | src/shardkv/server.go:493-510 | The loop finds exactly the shards lost, in order, and asks for or starts serving exactly those gained |
| `ShardNode.ShardKV.ParkLost` | src/shardkv/server.go:511-530 | Lost shards leave the served set and the data and are parked under the old number |
| `ShardNode.ShardKV.TakeOutShard` | src/shardkv/server.go:515-522 | Exactly the keys of the shard move out of the data |
| `ShardNode.ShardKV.MigrateShard` | src/shardkv/server.go:228-276 | Answers exactly when it has left the configuration asked about and has the shard parked, with a copy of the data and the table |
| `ShardNode.ShardKV.ExecMigrationDataSync` | src/shardkv/server.go:536-563 | Installs the shard once, merges the newer table entries, and moves the request to the collection list |
| `ShardNode.ShardKV.ExecGC` | src/shardkv/server.go:565-578 | Drops exactly the one parked copy |
| `ShardBalance.BalanceIsBest` | src/shardctrler/server.go:445-512 | For every number of shards, previous assignment and non-empty set of groups: the result is balanced, and no balanced assignment leaves more shards where they were |
| `ShardBalance.BalanceIsBalanced` | src/shardctrler/server.go:445-512 | Every group ends with the floor or one more, every shard is assigned, and the shards that stay are exactly those the first pass let their groups keep |
| `ShardBalance.ResultIs` | src/shardctrler/server.go:498-511 | The stack of shards to hand out ends empty and never runs out before |
| `ShardBalance.OnlyBalanced` | src/shardctrler/server.go:445-512 | An assignment computed in whatever order of the groups is fair to the set of groups, and no fair assignment leaves more shards where they were; with no groups every shard goes to group 0 |
| `ShardCtrler.MakeShardBalance` | src/shardctrler/server.go:445-512 | The in-place algorithm leaves every group with the floor or one more, and no such assignment moves fewer shards; the result is one function of the old assignment and the set of groups, whatever order the map is walked in; with no groups every shard goes to group 0 |
| `ShardCtrler.FindExcess` | src/shardctrler/server.go:456-485 | The first loop keeps up to the cap in each group and stacks the rest, in order |
| `ShardCtrler.HandOut` | src/shardctrler/server.go:498-511 | The second loop serves the groups in order and never pops an empty list |
| `ShardCtrler.ShardCtrler.constructor` | src/shardctrler/server.go:540-564 | Configuration 0 has no groups |
| `ShardCtrler.ShardCtrler.ExecJoin` | src/shardctrler/server.go:307-343 | A duplicate changes nothing; otherwise a new last configuration with the groups added and the shards rebalanced with as few moves as can be, the earlier ones untouched, and the call noted so that a retry is a duplicate |
| `ShardCtrler.ShardCtrler.ExecLeave` | src/shardctrler/server.go:345-380 | The same with the groups removed |
| `ShardCtrler.ShardCtrler.ExecMove` | src/shardctrler/server.go:382-414 | The same with one shard reassigned and no balancing; a shard that does not exist panics |
| `ShardCtrler.ShardCtrler.ExecQuery` | src/shardctrler/server.go:416-443 | The configuration asked for, and the latest for -1 and for numbers beyond it, as the function of the log's commands that the servers replicate |
| `ShardCtrler.BalanceIs` | src/shardctrler/server.go:445-512 | The new assignment does not depend on the order in which the groups are walked, is fair, and moves as little as can be |
| `ShardCtrler.ConfigsGrow` | src/shardctrler/server.go:307-443 | A command appends at most one configuration, with the next number, and changes none |
| `CtrlOverRaft.ServersAnswerFromOnePlan` | src/shardctrler/server.go:416-443 | In every run of the controller's peers without service snapshots, whichever server answers a query and however far behind it is, the answer is the configuration of its number in one plan, that of all commands of the run |
| `FileNames.ParseOfName` | src/mr/coordinator.go:179-185 | The coordinator reads back from a name the bucket the worker wrote |
| `FileNames.NameIsInjective` | src/mr/worker.go:87 | No two pairs of map task and bucket share a file name |
| `MapReduce.WriteBuckets` | src/mr/worker.go:82-111 | One file for each bucket that gets a pair, named after task and bucket, holding that bucket's pairs in order |
| `MapReduce.ReduceGroups` | src/mr/worker.go:151-169 | Over pairs sorted by key the two-pointer loop writes one line per distinct key, in increasing order, with the reduction of all its values |
| `MapReduceResult.ReadFiles` | src/mr/worker.go:122-141 | Reads the listed files in order, and stops the worker exactly when one is missing |
| `MapReduceResult.OneBucket` | src/mr/worker.go:142-169 | A reduce task over its bucket's pairs, read in any order, writes the sequential lines of its keys |
| `MapReduceResult.JobIsSequential` | src/main/mrsequential.go:41-87 | For every reduce function that does not look at the order of values, if each reduce task found its own bucket's files complete, the lines of all of them together are, as a multiset, those of the sequential program |
| `MapReduceResult.DeterminedIffOrderFree` | src/main/mrsequential.go:62-87 | The sequential output is determined for all inputs exactly when the reduce function does not look at the order of its values |
| `MrTheorems.TaskIsInOnePlace` | src/mr/coordinator.go:72-303 | Over every interleaving, each known task is in the idle queue exactly once, or in progress, or accepted, and never two of these |
| `MrTheorems.ReportCountsIff` | src/mr/coordinator.go:163-176 | A report counts exactly when the last thing that happened to its task is the hand-out it answers |
| `MrTheorems.AcceptedOnce` | src/mr/coordinator.go:200-249 | No task is accepted twice, and no two hand-outs share a transaction number |
| `MrTheorems.ReducesWaitForMaps` | src/mr/coordinator.go:107-143 | When a reduce task is handed out, every map task has been accepted before |
| `MrTheorems.DoneIsFinal` | src/mr/coordinator.go:347-363 | Once the coordinator says it is done, it stays done |
| `MrTheorems.DoneIffAllAccepted` | src/mr/coordinator.go:347-363 | It says so exactly when every map task and every known reduce task has been accepted |
| `MrSafety.StepKeepsInv` | src/mr/coordinator.go:72-303 | Every hand-out, report and timeout keeps queues, statuses, transactions and counters in agreement with what happened |
| `MrFiles.HandedFilesAreAll` | src/mr/coordinator.go:178-198 | In runs with well-formed reports, the list handed to a reduce task has the file of every map task that reported one for its bucket, each once, and nothing else |
| `MrFiles.ListsAcceptedIff` | src/mr/coordinator.go:178-198 | The reduce tasks' lists hold exactly the files of the accepted reports if and only if no report in time had an unreadable name after a readable one |
| `MrFiles.RefusedReportDuplicates` | src/mr/coordinator.go:179-185 | A run in which one accepted report leaves the same file on a list twice |
| `MrFiles.KnownReduces` | src/mr/coordinator.go:186-195 | The reduce tasks are the buckets that some accepted report has a file for |
| `MrJob.ReducesAreBuckets` | src/mr/coordinator.go:186-195 | When all map tasks are in, the reduce tasks are exactly the buckets that got a pair |
| `MrJob.FilesAreReduced` | src/main/mrsequential.go:41-87 | In every run of the coordinator that is done, if each reduce task found its own bucket's files complete, the outputs together are those of the sequential program |
| `MrWorkers.ContentsIs` | src/mr/worker.go:131-138 | Reading a file gives its longest filled beginning |
| `MrWorkers.FilledIff` | src/mr/worker.go:88-99 | The places filled in a file are exactly those written since it was last created, over every interleaving of executions that may stop anywhere |
| `MrWorkers.FilesAreParts` | src/mr/worker.go:86-100 | Whatever overlapped, a filled place holds the pair that belongs there |
| `MrWorkers.FileIsCompleteIff` | src/mr/worker.go:82-105 | A file holds all its bucket's pairs if and only if every place of the bucket was written after the file was last created |
| `MrWorkers.DiskIsCompleteIff` | src/mr/worker.go:82-105 | The same for all files of a bucket |
| `MrWorkers.AllIsReadIff` | src/mr/worker.go:131-138 | A reader that takes the file pair by pair, while others create and write it, gets all of the bucket if and only if each place was, at the moment it was read, written since the file was last created |
| `MrWorkers.FinishedIsSettled` | src/mr/worker.go:82-105 | However executions of a task overlapped, once it was executed and none of them is under way its files are complete |
| `MrWorkers.MappedIsSettled` | src/mr/coordinator.go:107-143 | Once every map task is accepted and no execution is under way, every file is complete |
| `MrWorkers.DoneJobIsSequential` | src/main/mrsequential.go:41-87 | Workers, late workers and the coordinator in any interleaving: in every run that is done, if each place was settled when its reduce task read it, the outputs of the reduce tasks together are those of the sequential program |
| `MrWorkers.QuietJobIsSequential` | src/main/mrsequential.go:41-87 | The same with no condition on the files, when no map execution was under way at a moment a reduce task read |
| `MrLateWorker.LateWorkerTruncates` | src/mr/worker.go:88-92 | A run of the job, with an expired hand-out and its replacement accepted, in which the first worker then creates the file again: the job is done, its reduce task wrote no line, and the sequential program writes at least one |
| `MrNode.Coordinator.constructor` | src/mr/coordinator.go:370-406 | One idle map task per input file, in order |
| `MrNode.Coordinator.GetMapTask` | src/mr/coordinator.go:72-104 | Waits, says all done, or hands out the head of the queue with a new transaction |
| `MrNode.Coordinator.GetReduceTask` | src/mr/coordinator.go:115-143 | The same for reduce tasks, with the file list of the task |
| `MrNode.Coordinator.MapTaskDone` | src/mr/coordinator.go:163-217 | Rejects exactly the reports that are not current; otherwise files the names, stops at an unreadable one, and completes the task only if there is none |
| `MrNode.Coordinator.FileAll` | src/mr/coordinator.go:178-198 | The loop over the names creates unknown reduce tasks and appends each name to its list |
| `MrNode.Coordinator.ReduceTaskDone` | src/mr/coordinator.go:220-249 | Accepts exactly the current report and completes the task |
| `MrNode.Coordinator.InspectMapTasks` | src/mr/coordinator.go:251-276 | Exactly the transactions over the time limit end, and their tasks are idle again |
| `MrNode.Coordinator.InspectReduceTasks` | src/mr/coordinator.go:278-303 | The same for reduce tasks |
| `MrNode.Coordinator.IsDone` | src/mr/coordinator.go:347-363 | True exactly when both counters have reached the number of tasks |

## Left out

- Commit and log safety in runs where the service takes snapshots: a follower answers success for a request behind its snapshot without storing the entries (src/raft/raft.go:472-474) and the leader counts them as matched (src/raft/raft.go:757-763), so the results on logs and commitment are stated for runs without service snapshots.
- DeliveryIsGapFree: is about one peer, so what the others do enters as three provisos, each on a message and the state it meets. An append request contradicts no entry the peer has marked committed and calls only committed entries committed; what a reply makes a leader count as committed is; an installed snapshot is one of the committed prefix. Without service snapshots no proviso is needed (ServicesFollowOneLog); with them they can fail (SnapshotBreaksSafety).
- Beyond the handler's condition (SuccessMeansStoredIff) and the run that fails (SnapshotBreaksSafety), no condition on whole runs with service snapshots is given under which commitment is safe.
- GroupsAreOneStore: takes the plan of configurations as given; that a controller's answers make one is ServersAnswerFromOnePlan. What a server may propose is read off any state its group has been in, which includes its own (EveryServerInTrace).
- Liveness: elections, timeouts, waiting and waking are steps that may happen; only the backoff and the search are shown to make progress.
- Raft.Start: commands are strings; the encoding of commands, messages and persisted state is not modelled beyond undoing itself.
- The network (src/labrpc) is modelled as a set of messages that may be lost, delayed and reordered; a vote call runs its handler at most once (src/labrpc/labrpc.go:218-291), an append call may run it again.
- Goroutines are modelled as atomic steps, one per critical section; data races outside the locks are not modelled.
- CheckSingle: the kill flag and the longest partial linearizations that are computed only for the visualization.
- checkEvents, renumber and convertEntries, which feed the same search from events instead of operations.
- MakeEntries: the library sort is a parameter, any function that orders the entries as the comparison demands.
- CheckKvOperations: is checkOperations with the key/value model; the partitions' searches are run one after the other, and the order in which their answers and the timeout arrive is a parameter.
- ReduceGroups: the library sort is a precondition, any ordering by key; files, JSON and plugins are values.
- GetReduceTask: the wait for the map tasks before it is a separate step of MrCoordinator.
- WriteBuckets: the hash is any function to the natural numbers, and the number of buckets is positive, as dividing by it demands.
- Bitset.Hash: mixes words as natural numbers below 2 to the 64; `get` is a read of one bit and has no member of its own.
- Clerks: the retry loops of src/kvraft/client.go and src/shardkv/client.go never end on their own, so a call is a start, any number of deliveries, and an answer; leader guessing and configuration lookups are not modelled.
- shardkv snapshots (src/shardkv/server.go:580-696), for the same reason as those of kvraft.
- The collection list of a shardkv leader shrinks outside the log (src/shardkv/server.go:383-387); the model lets it only grow, which allows more requests.
- A shard that is assigned to group 0 after configuration 1 is asked for from nobody and is not served again (src/shardkv/server.go:502-504); no availability is claimed.
- KeyShard: keys are strings of characters; the first byte of a character outside ASCII is not modelled.
- shardctrler's handlers, duplicate checks of replies and the waiting for an index; the exec functions keep the duplicate table.
- DoneJobIsSequential: a pair is written and read at once, the map function gives the same pairs every time, and two reduce workers writing one output file are not modelled.
- kvsrv, the mrapps, the test harnesses and the HTML visualization.
