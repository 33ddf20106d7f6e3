# JamRaft, modelled and proved in Dafny

JamRaft is a Raft implementation (sections 5, 7 and 8 of "In Search of an Understandable Consensus
Algorithm", extended version) with log compaction, pre-vote and read-index reads, driving a replicated
jukebox. This project models its consensus core, its two storage back ends, its state machine and the queue
specification of its linearizability checks, and proves what they keep over every run.

## How the model is built

| layer | files | what it is |
|---|---|---|
| objects | `RaftNode.dfy`, `MemStore.dfy`, `BoltStore.dfy`, `JukeboxMachine.dfy` | classes whose methods update fields and arrays in place, loop for loop as the Go code does; each method is proved equal to a function of the old state, and `RaftNode` also to make its storage calls in a stated order |
| sections as values | `Node.dfy`, `Storage.dfy`, `Jukebox.dfy` | each locked section of the Go node as a function from a node to its new state, storage calls, messages, applied entries and answers |
| cluster | `Cluster.dfy` | all nodes with their storage and every message ever sent, so messages may be lost, delayed, reordered and duplicated; a crash may strike between any two storage calls of any section. A free run takes any steps; a run takes guarded ones |
| core | `Consensus.dfy`, `ConsensusSteps.dfy`, `ConsensusLogs.dfy`, `ConsensusSafety.dfy` | a message-free protocol over whole, uncompacted logs with one append-only log per term; its invariant holds the figure 3 properties, and one of its actions lets a server forget part of its log |
| refinement | `Relation.dfy`, `Compaction.dfy`, `SimAppend.dfy`, `SimElect.dfy`, `SimLeader.dfy`, `SimSnapshot.dfy`, `Simulation.dfy` | every section, cut short after any number of its storage calls, is a step of the core |
| free runs | `Mirror.dfy`, `FreeRuns.dfy`, `StorageTrim.dfy` | what holds with no guard at all: elections, votes, contiguous logs, storage |
| answers | `Handlers.dfy`, `PreVote.dfy`, `Submits.dfy`, `CommitProgress.dfy` | exactly what each handler grants, answers, delivers and commits, and what that gives over runs |
| run theorems | `Theorems.dfy`, `AppliedLog.dfy`, `Machine.dfy`, `ReadIndex.dfy`, `LeadershipCheck.dfy`, `Repair.dfy`, `RepairRuns.dfy`, `CommitRule.dfy`, `CommitCap.dfy`, `ReplicatedJukebox.dfy` | what holds of every run |
| needed hypotheses | `Scenario.dfy`, `Climbing.dfy`, `HeartbeatCommits.dfy`, `ReadExact.dfy`, `SnapshotRewinds.dfy`, `TornSnapshot.dfy`, `StuckRepair.dfy` | concrete runs that break a property when its hypothesis is dropped, and the exact conditions |
| jukebox laws | `JukeboxLaws.dfy`, `SkipVotes.dfy`, `QueueModel.dfy` | exactly-once, conservation, skip votes, refinement of the queue specification |

Check the whole project with `dafny verify dfyconfig.toml`.

## Where the code falls short of its documentation

- The leadership check sends the full commit index with no entries (internal/raft/readindex.go:87-93), and a follower
  commits up to the minimum of that and its own last index (internal/raft/replication.go:242-243). A follower
  with a divergent tail then commits that tail: `UncappedHeartbeat` is a run in which two nodes apply different commands
  at one index. `CommitAgreesIff` says exactly when the follower's commit is the leader's. `Cluster.Guarded` is the
  one hypothesis of the safety theorems: a request moves the commit index within the entries it vouches for, or to an index where the
  request's leader, still leading, has an entry of the same term. `PlainRunGuarded` shows that runs without leadership checks
  meet it by themselves, and `ConfirmCappedIff` when a check's own request does.
- A read index is taken without a commit in the leader's own term (internal/raft/readindex.go:29-33; the comment there
  claims the no-op suffices). `ReadCoversIff` gives the exact condition on the leader's term and the term recorded; `StaleRead`
  is, for each failing pair of terms, a run in which a confirmed read misses a committed write. The comment at
  internal/raft/readindex.go:12-13 also promises writes committed before the call returned; what holds, and is proved, is for
  writes committed before the index was recorded.
- InstallSnapshot restores the jukebox for every newer snapshot but never lowers lastApplied
  (internal/raft/snapshot.go:108-150). `FoldSurvivesIff` gives the exact condition, `LateSnapshot` a run. The theorems about
  jukebox contents assume no such snapshot (`Theorems.FoldRun`); those about logs, commits and which commands are applied do not.
- InstallSnapshot deletes a conflicting suffix before it saves the snapshot (internal/raft/snapshot.go:124-141). A crash in
  between loses entries already acknowledged: `TornLosesIff` and `AcknowledgedLostIff` say exactly which, `AcknowledgedLost` is a
  run. No safety theorem assumes such crashes away: the acknowledged entries lost are committed and under the leader's own snapshot,
  and the core's action `Forget` keeps leader completeness. Only the strict clauses of `MatchIndexSound` and
  `AcksHonoured` ask for runs without one.
- A leader whose nextIndex for a peer has fallen to its snapshot while matchIndex has not
  (internal/raft/snapshot.go:88-91) ships that snapshot over and over. `RepairIffInRuns` says that this is the one obstacle to
  log repair; `StuckReached` is a run that gets there through a duplicated rejection and a compaction.
- The queue specification's string encoding loses separators and a lone empty element: `RoundTripIff` and
  `IdsFollowedIff` give the exact conditions.

## Model

| member | source | states |
|---|---|---|
| `Theorems.StateMachineSafety` | internal/raft/node.go:412-431 | no two nodes ever apply different entries at one index, over every run with elections, loss, duplication and crashes at any storage call, InstallSnapshot's torn one included |
| `FreeRuns.ElectionSafety` | internal/raft/election.go:74-150 | at most one node ever leads a term, across restarts and late vote replies, over every free run |
| `Theorems.LeaderCompleteness` | internal/raft/election.go:189-199 | every leader of every later term holds what a leader has committed, or has compacted away that very entry, stale pre-vote claims and torn crashes included |
| `Theorems.CoversIs` | internal/raft/node.go:286-297 | holding an entry in memory, or having compacted it away after it was applied, is having it in the whole, uncompacted log |
| `Theorems.LogMatchingInRuns` | internal/raft/replication.go:202-238 | entries alike in index and term are equal, and so are any two before them, compacted or not, in every pair of logs of every run |
| `Theorems.LogMatchesMessage` | internal/raft/replication.go:83-91 | the same between a log and a request still in flight, down to the boundary the request names |
| `Handlers.AppendAnswered` | internal/raft/replication.go:182-212 | a request gets one answer, in the node's new term, a success if and only if it is current and the log has, or has compacted, the entry it builds on; a current sender is taken for the leader |
| `Handlers.SnapshotAnswered` | internal/raft/snapshot.go:95-117 | a snapshot gets one answer, in the node's new term; a current one leaves the node with it or a later one |
| `Theorems.MatchIndexSound` | internal/raft/replication.go:111-117 | a peer still in the leader's term covers the very entries the leader counts it as holding, snapshot acknowledgements included; after a torn crash, all but those under the leader's own snapshot |
| `FreeRuns.VotesHonoured` | internal/raft/election.go:179-185 | a granted vote is kept: its voter has moved to a later term or still has it recorded, wherever crashes strike, over every free run |
| `FreeRuns.VotesUnique` | internal/raft/election.go:179-185 | no node grants its vote of one term to two candidates, over every free run |
| `PreVote.VoteIff` | internal/raft/election.go:153-187 | a vote is granted if and only if the term is not lower, the claimed log is lexicographically at least the node's, and the vote is unspent or already this candidate's; one answer, and the vote on disk when it is sent |
| `PreVote.PreVoteIff` | internal/raft/election.go:162-171 | a pre-vote is granted if and only if the term is not lower, the claimed log is at least the node's, and no leader was heard lately; it changes nothing |
| `PreVote.GrantsAre` | internal/raft/election.go:94-150 | a round counts exactly the peers that answered, are in no later term, have no better log and hear no leader |
| `PreVote.RoundLost` | internal/raft/election.go:42-50 | no node wins a round of pre-votes while a quorum of others hears a leader |
| `PreVote.TermsHeld` | internal/raft/election.go:42-61 | while a quorum hears a leader and elections are backed by pre-votes, no node enters a term above those there are, over every free run, crashes and late messages included |
| `PreVote.LeaderUndisturbed` | internal/raft/election.go:42-61 | and a leader of the highest term stays leader unless it crashes |
| `Handlers.TallyIff` | internal/raft/election.go:120-142 | a vote reply makes a leader if and only if it is of the election being held and completes the quorum |
| `Handlers.TalliesOpen` | internal/raft/election.go:120-142 | in every free run no candidate holds a quorum of votes without having become leader at once |
| `Handlers.TermLearned` | internal/raft/node.go:358-385 | any message but a pre-vote's brings the node to the greater of the two terms; a higher one leaves it a follower with no waiters |
| `Handlers.HintsTrue` | internal/raft/replication.go:191-199 | in every free run the leader a node names is itself if it leads, none if it stands, and else one that led its term or an earlier one |
| `Handlers.NewLeaderProbes` | internal/raft/election.go:202-232 | a new leader's first request to each peer carries just its no-op, built on the log it was elected with |
| `Theorems.AcksHonoured` | internal/raft/replication.go:228-248 | an acknowledged request's entries stay covered while the follower is in that term; a torn crash loses only such as have been applied and lie under the leader's snapshot |
| `FreeRuns.StorageMirrors` | internal/raft/node.go:206-241 | at every lock release a reload would rebuild the same term, vote, log and snapshot, over every free run |
| `FreeRuns.LogsContiguous` | internal/raft/node.go:206-241 | every log is contiguous from its snapshot boundary, right after a crash too, over every free run |
| `Handlers.CompactsIff` | internal/raft/snapshot.go:14-48 | after a pass of the apply loop the log is within the threshold or holds nothing applied; compaction happens just then, drops just what was applied and keeps every later entry's term |
| `StorageTrim.StorageExact` | internal/raft/snapshot.go:27-56 | until a node first crashes, and again from each snapshot it completes, its storage holds exactly the entries in memory, over every free run |
| `FreeRuns.FreeRunInv` | internal/raft/node.go:132-173 | shown votes bind their voters, no voter shows two in a term, every tally and every leader rests on shown votes, and storage mirrors memory, in every state of every free run |
| `Mirror.AnyPoint` | internal/raft/node.go:329-347 | every locked section of every node, cut short after any of its storage calls, leaves storage that mirrors a contiguous log, with the term not lowered and the vote of a term not changed |
| `Theorems.NodesValid` | internal/raft/node.go:412-433 | no state of a run has a commit index beyond its log, so the apply loop never indexes out of range |
| `Theorems.CursorsOrdered` | internal/raft/node.go:412-433 | snapshotIndex, lastApplied, commitIndex and the last index are in that order in every state of every run |
| `Theorems.AppliedIsFold` | internal/raft/node.go:412-433 | a node's jukebox is the fold of the log of what has been applied, up to lastApplied: each of its entries has been applied, and nothing else has been at those indexes; its snapshot is the fold of that log's prefix |
| `AppliedLog.LoggedStep` | internal/raft/node.go:412-431 | everything up to a node's lastApplied, and up to any snapshot shipped, has been applied, and so has every answered command; each step keeps this |
| `Theorems.ReplicasAgree` | internal/jukebox/jukebox.go:97-99 | nodes that have applied equally far have equal jukeboxes, at whatever points of the run |
| `Theorems.SubmitTruthful` | internal/raft/node.go:457-483 | a Submit that answers does so for the very entry that any node has applied or will apply at its index, late snapshots or not |
| `Theorems.SubmitApplied` | internal/raft/node.go:412-431 | and that entry has been applied when it answers |
| `Theorems.SubmitResult` | internal/raft/node.go:412-431 | its result is what that command produces on the jukebox of any node just short of the index |
| `Submits.WaitersServed` | internal/raft/node.go:412-431 | a waiter the apply loop comes by is answered if and only if the log has its command's term there, once, and is gone afterwards; every other waiter stays |
| `Submits.AnswersExact` | internal/raft/node.go:412-431 | the answers of a pass are exactly the results owed, each that of the machine after the entries before it |
| `Submits.SubmitAnswered` | internal/raft/node.go:457-483 | a Submit at a node that leads on is answered by the time the node has applied its entry, and waits until then, over every free run |
| `Submits.WaitersLead` | internal/raft/node.go:358-385 | in every run nobody waits at a node that does not lead the term of the command, or for a command already applied |
| `Theorems.RunShadow` | internal/raft/node.go:132-173 | every run of the cluster stands, state by state, for a run of the core whose invariant holds throughout |
| `Simulation.CallPoint` | internal/raft/node.go:329-347 | every locked section but sending a snapshot, cut short after any of its storage calls but the torn one, leaves storage that stands for a state the core can reach |
| `Simulation.TornCrashSim` | internal/raft/snapshot.go:124-141 | the torn crash is matched by the core too: the server forgets its log down to its snapshot |
| `Simulation.StepSim` | internal/raft/node.go:132-173 | every guarded step of the cluster, completed or crashed at any storage call, is matched by the core |
| `Simulation.GuardIsSafe` | internal/raft/replication.go:241-245 | the guard, read off the nodes, gives what the core asks of a follower's commit index |
| `Simulation.ReloadSim` | internal/raft/node.go:206-241 | a reload from storage that stands for a core state is that core state with volatile state reset |
| `SimAppend.AppendPoint` | internal/raft/replication.go:182-249 | AppendEntries, cut short at any storage call, refines the core, given that the commit index it sets is vouched for |
| `SimElect.VotePoint` | internal/raft/election.go:153-187 | RequestVote, cut short at any storage call, refines the core |
| `SimElect.VoteReplyPoint` | internal/raft/election.go:120-142 | the vote tally makes a leader only from votes a quorum really recorded |
| `SimElect.ElectPoint` | internal/raft/election.go:74-89 | starting an election with a claim captured before the pre-vote refines the core |
| `SimLeader.AppendReplyPoint` | internal/raft/replication.go:101-132 | handling a replication reply, its commit count included, refines the core |
| `SimLeader.SnapReplyPoint` | internal/raft/snapshot.go:78-91 | handling a snapshot reply refines the core |
| `SimLeader.ProposePoint` | internal/raft/node.go:441-453 | proposing, cut short at any storage call, refines the core |
| `SimLeader.ApplyPoint` | internal/raft/node.go:412-433 | applying and compacting, cut short at any storage call, refines the core; only certified entries are applied |
| `SimSnapshot.SnapPoint` | internal/raft/snapshot.go:95-153 | InstallSnapshot, cut short at any storage call but the torn one, refines the core |
| `SimSnapshot.TornSim` | internal/raft/snapshot.go:124-141 | cut short at the torn one, it refines the core's forgetting: a reload has the log up to the old snapshot |
| `ConsensusSafety.NextInv` | internal/raft/node.go:132-173 | every action of the core, forgetting included, keeps its invariant, log matching, completeness and certified commits among it |
| `ConsensusLogs.ForgetInv` | internal/raft/snapshot.go:124-141 | a server that forgets its log above k, with a later commit of its term's leader shipped, leaves all the others' promises standing |
| `ConsensusSafety.CommittedAgree` | internal/raft/replication.go:160-178 | committed prefixes of any two servers agree |
| `ConsensusLogs.NoOtherLeader` | internal/raft/election.go:132-139 | a quorum of votes leaves room for no other leader of the term |
| `ConsensusLogs.WinnerComplete` | internal/raft/election.go:189-199 | the up-to-date check gives every winner whatever may still be committed in earlier terms, though voters may have forgotten it |
| `ConsensusLogs.ClaimKept` | internal/raft/election.go:42-68 | a claim captured before the pre-vote still vouches for the candidate's log in the real election |
| `Compaction.TermTransparent` | internal/raft/node.go:286-297 | termAt on the compacted log answers as on the whole log |
| `Compaction.SliceTransparent` | internal/raft/node.go:304-317 | sliceFrom on the compacted log is the whole log's suffix |
| `Compaction.MergeTransparent` | internal/raft/replication.go:217-237 | the merge loop on the compacted log does what it does on the whole log: nothing if the leader's entries are there, else one cut at the parting point and the leader's entries appended |
| `Compaction.LoadTransparent` | internal/raft/node.go:224-238 | start-up rebuilds the compacted log from storage, whatever lingers below the snapshot |
| `CommitRule.AdvanceExact` | internal/raft/replication.go:160-178 | the countdown sets commitIndex to k if and only if k is the greatest own-term index a quorum holds, or the old value when there is none, for every matchIndex map |
| `CommitRule.AdvanceMonotone` | internal/raft/replication.go:160-178 | learning more from peers never commits less |
| `CommitProgress.FollowerCommitIff` | internal/raft/replication.go:241-245 | an accepted request leaves commitIndex at the greatest index that is the old one or within both leaderCommit and the merged log, if and only if the merge did not cut the log below a commit index that the request would raise; a refused one leaves it |
| `CommitProgress.FollowerCommits` | internal/raft/replication.go:241-245 | in every run, at every accepted request, commitIndex is exactly that greatest index |
| `CommitProgress.CallSettles` | internal/raft/replication.go:160-178 | every section, proposals and elections in a single-node cluster included, leaves no index above a leader's commitIndex of its own term and on a quorum |
| `CommitProgress.CommitSettled` | internal/raft/node.go:441-453 | so in every state of every run a leader has committed all that its matchIndex lets it |
| `CommitProgress.CommitCatchesUp` | internal/raft/replication.go:59-132 | from every state of every run in which the leader is not stuck with a peer, repair and one more round bring the peer's commitIndex to the leader's |
| `CommitCap.CommitAgreesIff` | internal/raft/replication.go:241-245 | a follower's new commit is the leader's prefix if and only if it was covered before, is covered by the request, or carries the leader's term there |
| `CommitCap.SendsCapped` | internal/raft/replication.go:82-91 | every request but the leadership check's carries a commit index within its own entries |
| `CommitCap.PlainRunGuarded` | internal/raft/replication.go:59-92 | runs without leadership checks, whatever their crashes, meet the theorems' hypothesis by themselves |
| `CommitCap.ConfirmCappedIff` | internal/raft/readindex.go:79-93 | a leadership check's request is capped if and only if nothing beyond where it resumes is committed |
| `HeartbeatCommits.UncappedHeartbeat` | internal/raft/readindex.go:79-93 | in every three-node cluster a leadership check can make two nodes apply any two given commands at index 2 |
| `ReadIndex.ReadIndexCovers` | internal/raft/readindex.go:23-43 | with an own-term commit and a quorum that answered requests sent since, the read index covers every commit any node had when it was recorded |
| `ReadIndex.ReadIndexCoversApplied` | internal/raft/readindex.go:23-43 | and every entry any state machine had been handed |
| `ReadIndex.ReadReflects` | internal/raft/readindex.go:121-137 | once applied that far, the reader's jukebox is the fold of the log of what has been applied, and that log continues the one every jukebox was the fold of when the read began |
| `ReadIndex.ReadSeesAnswered` | internal/raft/readindex.go:23-43 | every write answered before the read began is in the applied log the read sees, with the result it was answered |
| `ReadPath.CountedReadCovers` | internal/raft/readindex.go:47-117 | the same from enough successes of the checked term among the answers, rejections and higher terms included, to requests sent since the index was recorded |
| `LeadershipCheck.AckCountIsSize` | internal/raft/readindex.go:65-116 | the ack counter is the number of distinct peers that confirm |
| `LeadershipCheck.AckCountExact` | internal/raft/readindex.go:98-111 | the counter is the number of answers that are successes with a term no higher than the one checked |
| `LeadershipCheck.DeposedIff` | internal/raft/readindex.go:98-105 | an answer with a higher term leaves the node a follower, without a vote, in the highest term shown, on disk too; otherwise nothing changes |
| `CommitProgress.SyncedConfirms` | internal/raft/readindex.go:79-111 | a peer in step confirms its leader in one request, whatever commit index it carries |
| `ReadExact.ReadCoversIff` | internal/raft/readindex.go:23-43 | a confirmed leader of term t that recorded an index of term c covers every earlier commit in every run, if and only if c == t or t <= 1 |
| `ReadExact.StaleRead` | internal/raft/readindex.go:29-33 | for every other pair of terms, and every three-node cluster, a run in which the confirmed index misses a commit |
| `ReadExact.FirstTermCovers` | internal/raft/readindex.go:23-43 | in the first term a confirmed index misses nothing |
| `Repair.RejectLowers` | internal/raft/replication.go:121-156 | every rejection sends the leader's nextIndex below the request's, to at least 1 and above what is known to match |
| `Repair.FirstOfTermMeans` | internal/raft/node.go:320-327 | the conflict hint is the term's first entry, at or before the rejected one |
| `Repair.LastOfTermMeans` | internal/raft/replication.go:145-151 | the leader's scan finds the term's last entry, or nothing if and only if the term does not occur |
| `Repair.Converges` | internal/raft/replication.go:59-132 | unless stuck, uninterrupted rounds end with the follower holding the leader's whole log, after at most nextIndex + 1 of them, snapshots included |
| `Repair.RepairIff` | internal/raft/snapshot.go:88-91 | rounds bring the follower in step if and only if the leader is not stuck on a snapshot or nothing was left to do |
| `RepairRuns.NextStaysInRange` | internal/raft/replication.go:111-125 | over every run a leader's nextIndex stays between 1 and the end of its log |
| `RepairRuns.RepairTerminates` | internal/raft/replication.go:30-55 | from every state of every run in which the leader is not stuck with a peer, repair ends with the peer covering every entry the leader covers, after at most nextIndex + 1 rounds |
| `RepairRuns.RepairIffInRuns` | internal/raft/snapshot.go:88-91 | from every state of every run, rounds bring a peer up to the leader's last index if and only if the leader is not stuck with it or nothing was left to do |
| `StuckRepair.StuckReached` | internal/raft/snapshot.go:88-91 | in every three-node cluster, a run after which no number of rounds gets a peer the leader's last entry |
| `SnapshotRewinds.FoldSurvivesIff` | internal/raft/snapshot.go:108-150 | whatever the log holds, installing keeps the jukebox the fold up to lastApplied if and only if the snapshot is covered already or reaches lastApplied |
| `SnapshotRewinds.LateSnapshot` | internal/raft/snapshot.go:113-150 | a run in which a late snapshot undoes an applied command without moving lastApplied |
| `TornSnapshot.TornLosesIff` | internal/raft/snapshot.go:124-141 | in every run, a crash after the suffix is deleted uncovers an entry the follower covered if and only if it lies above the follower's snapshot |
| `TornSnapshot.AcknowledgedLostIff` | internal/raft/snapshot.go:124-141 | a follower's first such crash breaks its promise for an acknowledged entry of its term if and only if the entry lies above its snapshot |
| `TornSnapshot.AcknowledgedLost` | internal/raft/snapshot.go:124-141 | a run in which that crash makes a follower lose an entry it acknowledged in its term |
| `Machine.FoldStep` | internal/raft/snapshot.go:113-150 | every step keeps each jukebox the fold of its log, each snapshot in memory, storage or flight a fold, and each answer truthful |
| `RaftNodes.RaftNode.constructor` | internal/raft/node.go:176-241 | a new node is what storage holds |
| `RaftNodes.RaftNode.TermAt` | internal/raft/node.go:288-297 | the term at an index, or none outside the log |
| `RaftNodes.RaftNode.SliceOf` | internal/raft/node.go:305-317 | the entries from an index on |
| `RaftNodes.RaftNode.FirstOfTerm` | internal/raft/node.go:320-327 | the scan finds what the recursive definition says |
| `RaftNodes.RaftNode.StepDown` | internal/raft/node.go:358-385 | the new term is entered and persisted, the vote and every waiter dropped |
| `RaftNodes.RaftNode.AdvanceCommit` | internal/raft/replication.go:160-178 | the nested loops move commitIndex to where the commit rule puts it, and nothing else |
| `RaftNodes.RaftNode.MergeEntries` | internal/raft/replication.go:214-235 | the loop's truncations and appends, in memory and in storage, are those of the merge function |
| `RaftNodes.RaftNode.AppendEntries` | internal/raft/replication.go:182-249 | the whole handler: state, reply and storage calls in order |
| `RaftNodes.RaftNode.NextIndexAfterConflict` | internal/raft/replication.go:137-156 | where the leader resumes after a rejection |
| `RaftNodes.RaftNode.HandleAppendReply` | internal/raft/replication.go:101-132 | the leader's bookkeeping after a replication reply |
| `RaftNodes.RaftNode.HandleSnapReply` | internal/raft/snapshot.go:78-91 | the leader's bookkeeping after a snapshot reply |
| `RaftNodes.RaftNode.BeginCampaign` | internal/raft/election.go:37-53 | a campaign captures the last index and term it will claim |
| `RaftNodes.RaftNode.StartRealElection` | internal/raft/election.go:74-89 | term and vote are persisted before votes are asked for; alone, the node leads at once |
| `RaftNodes.RaftNode.CandidateIsUpToDate` | internal/raft/election.go:192-199 | the election restriction |
| `RaftNodes.RaftNode.RequestVote` | internal/raft/election.go:153-187 | the whole handler, pre-vote included: state, reply and storage calls in order |
| `RaftNodes.RaftNode.HandleVoteReply` | internal/raft/election.go:120-142 | the tally: stale replies are ignored, the quorum's vote makes a leader once |
| `RaftNodes.RaftNode.GatherPreVotes` | internal/raft/election.go:94-150 | a pre-vote round is won if and only if the node and the answers that grant make a quorum |
| `RaftNodes.RaftNode.BecomeLeader` | internal/raft/election.go:202-232 | the leader's bookkeeping is reset and its no-op appended, persisted and counted |
| `RaftNodes.RaftNode.MaybeSnapshot` | internal/raft/snapshot.go:14-48 | compaction happens when due and only then, snapshot saved before the prefix is dropped |
| `RaftNodes.RaftNode.InstallSnapshot` | internal/raft/snapshot.go:95-153 | the whole handler: state, reply and storage calls in order |
| `RaftNodes.RaftNode.ApplyReady` | internal/raft/node.go:412-433 | the loop applies every committed entry in order, answers matching waiters and then compacts when due |
| `RaftNodes.RaftNode.Propose` | internal/raft/node.go:441-472 | a leader appends and persists the command, registers a waiter if asked, and counts; others change nothing |
| `RaftNodes.RaftNode.BuildRequest` | internal/raft/replication.go:59-92 | what is sent to a peer: its missing suffix, or the snapshot when that is compacted away |
| `RaftNodes.RaftNode.BuildConfirmation` | internal/raft/readindex.go:79-93 | the leadership check's empty request |
| `RaftNodes.RaftNode.CountConfirmations` | internal/raft/readindex.go:65-116 | true if and only if the node and the positions whose answer is a success of no higher term make a quorum; a higher term deposes the node |
| `MemStorage.MemStore.Append` | internal/store/mem.go:40-48 | entries are stored under their index, later ones winning |
| `MemStorage.MemStore.TruncateSuffix` | internal/store/mem.go:50-59 | the delete loop removes exactly the indexes from idx on |
| `MemStorage.MemStore.TruncatePrefix` | internal/store/mem.go:61-70 | the delete loop removes exactly the indexes up to idx |
| `MemStorage.MemStore.AllEntries` | internal/store/mem.go:72-85 | collecting, sorting and fetching gives the listing in index order |
| `KeyOrder.KeysOrdered` | internal/store/bolt.go:54-58 | 8-byte big-endian keys order exactly as the numbers do and decode to them |
| `KeyOrder.BytesEncode` | internal/store/bolt.go:54-58 | every byte key is the encoding of the number it decodes to |
| `BoltStorage.ValuesAreListing` | internal/store/bolt.go:146-160 | walking a bucket in key order lists the log in index order |
| `BoltStorage.CutAt` | internal/store/bolt.go:104-144 | cutting a bucket where a number belongs is filtering the log by it |
| `BoltStorage.BoltStore.Append` | internal/store/bolt.go:85-102 | the abstract append |
| `BoltStorage.BoltStore.TruncateSuffix` | internal/store/bolt.go:104-122 | seek, collect and delete is the abstract suffix truncation |
| `BoltStorage.BoltStore.TruncatePrefix` | internal/store/bolt.go:124-144 | scan, collect and delete is the abstract prefix truncation |
| `BoltStorage.BoltStore.AllEntries` | internal/store/bolt.go:146-160 | the same listing the in-memory store gives |
| `BoltStorage.BoltStore.SaveHardState` | internal/store/bolt.go:60-68 | term and vote replaced; the term survives its encoding |
| `BoltStorage.BoltStore.LoadHardState` | internal/store/bolt.go:70-83 | term and vote as stored, zero values when never written |
| `BoltStorage.BoltStore.SaveSnapshot` | internal/store/bolt.go:162-173 | the snapshot replaced; index and term survive their encoding |
| `BoltStorage.BoltStore.LoadSnapshot` | internal/store/bolt.go:175-192 | the snapshot as stored, zero values when never written |
| `BoltStorage.StoresAgree` | internal/store/bolt.go:60-192 | the same sequence of calls leaves the in-memory and the on-disk store with the same entries, listing, hard state and snapshot |
| `JukeboxMachine.Jukebox.Apply` | internal/jukebox/jukebox.go:100-127 | state and result are those of the specification, duplicates replayed from the cache |
| `JukeboxMachine.Jukebox.ApplyInner` | internal/jukebox/jukebox.go:129-202 | each operation's effect, the auto-advance of a decisive vote included |
| `JukeboxMachine.ShiftInPlace` | internal/jukebox/jukebox.go:190-195 | the slice shifting equals remove-then-insert |
| `JukeboxMachine.Jukebox.Find` | internal/jukebox/jukebox.go:174-180 | the scan finds the first song with the id |
| `JukeboxMachine.Jukebox.Restore` | internal/jukebox/jukebox.go:236-260 | no data changes nothing; otherwise the snapshot, with an unset threshold defaulted |
| `JukeboxMachine.RestoreUndoesSnapshot` | internal/jukebox/jukebox.go:228-260 | restoring what any run snapshots gives the same jukebox |
| `JukeboxLaws.ExactlyOnce` | internal/jukebox/jukebox.go:100-127 | with arbitrary retries the jukebox is where one without duplicate suppression is after the effective commands alone |
| `JukeboxLaws.HighestMeans` | internal/jukebox/jukebox.go:110-117 | a command is effective if and only if its number exceeds all earlier ones of its client |
| `JukeboxLaws.Sessions` | internal/jukebox/jukebox.go:119-125 | the last-number and last-result maps always have the same clients, and hold the highest number seen |
| `JukeboxLaws.DuplicateIff` | internal/jukebox/jukebox.go:110-117 | exactly the commands at or below an earlier number of their client are duplicates |
| `JukeboxLaws.RetryAnswersAlike` | internal/jukebox/jukebox.go:110-117 | a retry changes nothing and answers as the command first did, until its client moves on |
| `JukeboxLaws.SongsConserved` | internal/jukebox/jukebox.go:134-197 | history, now-playing and queue together are the enqueued songs, none lost or invented |
| `JukeboxLaws.OrderKept` | internal/jukebox/jukebox.go:134-169 | without reorders they stand in the order they were enqueued |
| `JukeboxLaws.LogConserved` | internal/jukebox/jukebox.go:100-202 | conservation over logs with retries |
| `JukeboxLaws.MoveMeans` | internal/jukebox/jukebox.go:184-196 | a reorder puts the song where asked and keeps the order of the others |
| `JukeboxLaws.VotesBelowThreshold` | internal/jukebox/jukebox.go:154-169 | the vote count stays below the threshold, and is empty when nothing plays |
| `SkipVotes.VotesAre` | internal/jukebox/jukebox.go:154-169 | after every sequence of commands the votes held are exactly those cast since the song on came on, by voter or else client id |
| `SkipVotes.SkipIff` | internal/jukebox/jukebox.go:154-172 | a vote changes now-playing, queue or history if and only if it brings the distinct voters since the song came on to three; otherwise exactly this voter is added |
| `SkipVotes.SongStartsUnvoted` | internal/jukebox/jukebox.go:143-152 | whatever puts a song on or away leaves no votes behind |
| `SkipVotes.PlayNextChanges` | internal/jukebox/jukebox.go:141-152 | playing the next song puts away the one on and takes the queue's first |
| `SkipVotes.LogVotes` | internal/jukebox/jukebox.go:100-172 | the same votes over logs with retries |
| `SkipVotes.RefusedIff` | internal/jukebox/jukebox.go:129-202 | a command is refused, with a reason and no effect, exactly when nothing can be done with it |
| `SkipVotes.AnswerShows` | internal/jukebox/jukebox.go:204-212 | every other answer but a no-op's shows queue, now-playing and vote count after the command |
| `SkipVotes.ReorderMeans` | internal/jukebox/jukebox.go:172-197 | a reorder moves the first song with the id to the place nearest the one asked for and nothing else |
| `ReplicatedJukebox.ReplicaExactlyOnce` | internal/jukebox/jukebox.go:73-78 | every replica in every run shows exactly the effective commands of the log of what has been applied, up to its lastApplied, with songs conserved and its skip votes those cast since its song came on |
| `ReplicatedJukebox.RetriesAnsweredAlike` | internal/jukebox/jukebox.go:73-78 | two answers to one tagged command, whichever leaders gave them, are alike if no newer command of its client has been applied below the second |
| `QueueModel.RoundTripIff` | chaos/model.go:28-35 | decoding undoes encoding if and only if no element holds a separator and the queue is not one empty string |
| `QueueModel.JoinSplit` | chaos/model.go:28-35 | encoding undoes decoding on every string |
| `QueueModel.JukeboxRefinesQueue` | chaos/model.go:44-63 | every history of enqueues and play-nexts with fitting ids is accepted step by step, the string state tracking the queue |
| `QueueModel.LogRefinesQueue` | chaos/model.go:44-63 | the same for the effective commands of a log with retries |
| `QueueModel.IdsFollowedIff` | chaos/model.go:44-63 | the specification follows the jukebox past an id if and only if the id is non-empty and separator-free |
| `QueueModel.StepIff` | chaos/model.go:44-63 | a step is rejected exactly when the decoded queue has no move with that output: add, take the first, or find it empty |
| `QueueModel.AcceptedIff` | chaos/model.go:44-63 | a history of values the encoding carries is accepted if and only if it is first in, first out |

## Left out

- Timers, election deadlines and heartbeat intervals: a timeout, and "no leader heard from lately", are free choices; liveness and failover time are not modelled.
- Goroutines, channels, contexts and triggers: only locked sections are steps. Nor is the pre-vote round: an election may start at any time after its claim was captured, as it may with pre-vote disabled; `PreVote.TermsHeld` takes as a hypothesis that elections are backed by rounds won. Cancelling a Submit is not a step.
- Storage errors (logged and ignored by the code) and malformed snapshot data: storage calls succeed, and Restore succeeds on what Snapshot made.
- JSON and protobuf encodings: commands, results, entries and snapshots are datatypes; a payload that does not decode is `Malformed`.
- 64-bit wrap-around of terms and indexes: numbers are unbounded, except in the on-disk keys, where 8 bytes are modelled and numbers below 2^64 required.
- Sharing of song and entry references: songs and entries are values.
- Transport, server, client, command-line, web and demo code, and the simulator's fault schedules: no property of their own.
- Membership change: not implemented by the repository; the peer set is fixed and duplicate-free, and no node has the empty id, which the code uses for "no vote".
- The confirmation replies of a leadership check may in the model also be handled as replication replies, which the code never does: the model allows more runs than the code.
- A vote counter that counts answers is modelled as the set of peers that granted, since each peer is asked once per election.
- Applying when the commit index lies beyond the log: the code's loop then indexes out of range, or has nothing left to do; the model has no such step. It can arise only in free runs (`Theorems.NodesValid`).
- Theorems.StateMachineSafety: for runs whose steps are `Guarded`; without the guard it is false (`HeartbeatCommits.UncappedHeartbeat`). `CommitCap.CommitAgreesIff` is the exact condition for one request; the guard is narrower where the request's leader no longer leads or has compacted that index away, since it then speaks of a log that no node may hold any more.
- Theorems.MatchIndexSound: the clause without exceptions is for runs without a torn crash; with one it is false (`TornSnapshot.AcknowledgedLostIff`, `TornSnapshot.AcknowledgedLost`).
- Theorems.AcksHonoured: likewise.
- Theorems.AppliedIsFold: for runs in which no installed snapshot reaches behind lastApplied; without that it is false (`SnapshotRewinds.LateSnapshot`).
- ReadIndex.ReadIndexCovers: needs an own-term commit at the leader; `ReadExact.ReadCoversIff` says that this or the first term is exactly what is needed.
- ReadIndex.ReadReflects: waiting until the read index is applied is left to the caller and is a hypothesis.
- RepairRuns.RepairTerminates: for uninterrupted rounds between a leader and a peer that is not in a later term and that it is not stuck with; stuck, it is false (`RepairRuns.RepairIffInRuns`, `StuckRepair.StuckReached`).
