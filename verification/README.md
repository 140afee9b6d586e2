# Models and proofs for adviskv

adviskv is a sharded key-value store. Each shard is a Raft group of storage replicas; a meta server
decides which replicas exist, on which nodes, and in which phase. This project models the parts of it
that have to be right for the rest to make sense, and proves what they promise.

The proofs come in three layers.

**The Raft replica.** `Replica` gives each handler of a replica as a function from its state to its next
state and messages. `Cluster` puts replicas into a network that loses, repeats and reorders messages, and
adds crashes, torn writes, snapshots, reads and member lists that change on each replica at its own time.
`ClusterVotes` proves one leader and one vote per term of all its runs. `Consensus` is the safety argument
over a history of terms; `ClusterInvariant` and the modules after it tie every replica and every message to
that history, and `ClusterSafety` draws the conclusions: agreement of everything ever committed, soundness
of match indices, linearizable reads. `ReadState` carries the last one from logs to what the state machine
holds. `ExactlyOnce` shows that no log holds a request id twice, and `Reports` what a caller may conclude from
being told of success. On runs put together from the pieces in `Runs`, `OverlapNeeded` shows that the
condition on voter sets is exact, `LaggingMember` how a group comes to violate it, and `UnknownLeader` what
happens without the condition on unknown leaders. The other way round, runs show that the replicas do what they
are for: `Availability` that a quorum can always elect a leader, `CatchUp` that a leader can bring a follower up to
date and `Stall` exactly when it cannot, `Progress` that from every reachable state a quorum can commit a new record
and read it, and `ReadPasses` that a read that is begun is answered and not failed. `Core` is the replica as
an object that works in place on its log, election, replication, apply and membership objects
(`RaftLogClass`, `Election`, `Replication`, `Apply`, `Membership`); its methods are proved to perform those
functions and to leave the disk able to reproduce the result, and `CoreRuns` shows that each of them is a run
of cluster steps. `Reads`, `Proposals` and `Executor` are the loop's trackers and its rule to persist before
sending.

**Durability.** `Crc`, `Codec` and `Streams` are the binary format and the objects that read and write it;
`Wal` and `WalStore` the write-ahead log with torn-tail recovery; `SnapshotFile` and `SnapshotTransfer` the
snapshot file and its transfer in chunks; `Damage` says which changed bytes are noticed.

**The meta server.** `MetaIndex` and `MetaStore` are transactions over records with incrementally kept
indexes; `Lifecycle` the reconcilers that create, retire and delete replicas, and `Convergence` where they lead;
`Placement` the choice of nodes.

Some properties one would expect do not hold of the code as it is. Each is given with an input that shows
it and the condition under which it does hold.

- Draining committed records skips a write exactly when a config change directly follows the write that
  overflows a batch (`Apply.DrainIsExact`, `Apply.OverflowLosesAWrite`).
- One leader per term holds in all runs exactly when any two quorums of the voter sets of the whole run meet
  (`OverlapNeeded.ElectionSafetyExactly`). Sets that differ by one promotion or removal do; the condition is
  on the family of all sets in the run, so a group that grows by two, one settled change after the other, is
  outside it. Going through config records one at a time is not enough: a replica that restarts two changes
  behind, with the list it was created with, leads beside the leader of the newer list
  (`LaggingMember.LaggardLeadsToo`).
- Committed records can diverge. A follower that does not know its leader rejects it before looking at its
  records, the leader moves its probe back by one each time, and once the follower has learnt of the leader
  it takes a message that lies wholly below the point where the logs part and clamps the commit index to the
  end of its own log (`UnknownLeader.StrangersBreakAgreement`). The clamp goes wrong exactly when the
  follower holds the whole message and a record between its end and the clamped index differs
  (`ClusterReplication.ClampExactly`). It never does in prudent runs, in which a replica that has turned a
  leader away as unknown takes none of its messages that ends below the commit index it brings; the theorems
  of `ClusterSafety` are about those, and `UnknownLeader.OnlyStrangersDo` is their corollary for diverging runs.
- A write reported as committed need not be: the tracker looks at the index alone, also after another leader's
  message has replaced the record (`Proposals.LostWriteIsReported`). The report is true, for every replica and
  for good, exactly when the record at the index still has the term the request was placed in
  (`Reports.SuccessExactly`); a replica that still leads that term always meets this
  (`Reports.LeaderKeepsPlace`).
- A crash right after a received snapshot is published can keep records that installing it would have dropped,
  exactly when the log goes on above the snapshot with another term at its index (`Wal.RecoverAfterReceived`).
  Log matching is then lost, and so is the invariant (`ClusterSnapshots.TornInstallExactly`); prudent runs
  have no such crash.
- A leader cannot always bring a follower up to date. If the answers to records are lost and the follower puts
  those records into a snapshot, the leader's probe lies inside that snapshot, where the follower compares nothing
  and refuses everything, and the leader never goes back below what it knows to match. Every group with one member
  more than a quorum can get there (`Stall.CanStall`). The two can be brought together if and only if the leader is
  not `CatchUp.Blocked`: its probe is above the follower's snapshot, or its own snapshot is above what it knows to
  match, or nothing is known to match and one message reaches the end of the follower's snapshot
  (`CatchUp.CatchesUp`, `Stall.NeverGetsOut`). A later snapshot of the leader's own ends it.
- A damaged snapshot file can be accepted: a change of one byte goes unnoticed exactly in the two counts of its
  trailer (`Damage.SnapshotDamageExactly`).
- The name index of the meta server stays exact exactly under the conditions of
  `MetaStore.MetaStoreTxn.PutTable`, `DeleteTable` and `PutDatabase`, and is rebuilt exactly when no name is
  shared (`MetaStore.RebuildIndex`, `MetaStore.DeadTableTakesName`).

Integers are unbounded unless a width matters for the format. A dispatch of a replica's loop, and a
transaction of the meta store, is one step. Time, threads and the network below messages are not modelled.

## Model

| member | source | states |
|---|---|---|
| `ClusterVotes.OneLeaderPerTerm` | src/storage/raft/core/raft_core_election.cpp:285-380 | over every run with crashes, reloads, lost, repeated and reordered messages and member lists that change at any time, a term has at most one leader, if any two quorums of the voter sets in force in the course of the run meet |
| `LaggingMember.LaggardLeadsToo` | src/storage/replica/replica_manager.cpp:129-162 | a run with two leaders in one term whose replicas were all created with one list, and in which every list is that one, a snapshot's or what a committed config record makes of the one before: a replica restarts two changes behind |
| `OverlapNeeded.ElectionSafetyExactly` | src/storage/raft/raft_membership.cpp:91-115 | one leader per term in all runs if and only if any two quorums of the voter sets that may be in force in the course of the run share a replica; otherwise a run with two leaders in one term is constructed |
| `OverlapNeeded.Elect` | src/storage/raft/core/raft_core_election.cpp:60-87 | any quorum of fresh replicas can elect any of its members, leaving all other replicas untouched |
| `Availability.SomeoneCanLead` | src/storage/raft/core/raft_core_election.cpp:234-342 | in every world, whatever the logs, a quorum of ready replicas that count each other as voters has a member that can be elected: a run in which it gathers the votes of all of them in a new term and leads |
| `Progress.NeverStuck` | src/storage/raft/core/raft_core_append.cpp:58-301 | after every prudent run, such a quorum can elect a leader that takes a given record, has its whole log committed by all of them and then answers a read of it |
| `CatchUp.CatchesUp` | src/storage/raft/raft_replication.cpp:113-172 | a leader that is not blocked brings a follower up to date, whatever the two logs and wherever the probe stands, by records or by its snapshot |
| `Stall.NeverGetsOut` | src/storage/raft/core/raft_core_append.cpp:169-181 | a blocked leader stays blocked in any number of exchanges with that follower: it never learns that the follower holds what is in the follower's snapshot |
| `Stall.CanStall` | src/storage/raft/raft_replication.cpp:125-136 | after every prudent run, if one member more than a quorum is ready, there is a run to a world in which a leader is blocked |
| `ClusterVotes.OneVotePerTerm` | src/storage/raft/raft_election.cpp:29-82 | over all those runs, and with no condition on voter sets, no replica grants its vote to two candidates in one term |
| `ClusterSafety.StateMachineSafety` | src/storage/raft/raft_replication.cpp:173-204 | what any replica has committed at any time agrees with what any replica has committed at any later time, over all prudent runs: member lists change freely, of a leader it has turned away as unknown a replica takes no message that ends below the commit index it brings, and no crash leaves a tail on a received snapshot that was written over another record |
| `UnknownLeader.StrangersBreakAgreement` | src/storage/raft/core/raft_core_append.cpp:137-143 | a run from empty logs, with meeting quorums and without any crash, in which every replica applies what is committed as soon as it knows, and two replicas commit different records at index 257, because a follower rejected its new leader 258 times as a stranger before it learnt of it |
| `UnknownLeader.OnlyStrangersDo` | src/storage/raft/raft_apply.cpp:16-20 | a corollary of StateMachineSafety: a run in which committed records diverge is not prudent |
| `ClusterReplication.ClampExactly` | src/storage/raft/raft_apply.cpp:16-20 | clamping the leader's commit index to the end of the follower's log commits a wrong record if and only if the follower holds the whole message and has a differing record between its end and the clamped index |
| `ClusterSafety.LeadersHaveCommitted` | src/storage/raft/core/raft_core_election.cpp:234-283 | everything committed is in the log of every leader of the same or a later term from then on, over all prudent runs |
| `ClusterSafety.MatchIsSound` | src/storage/raft/raft_replication.cpp:117-163 | while a follower is in the leader's term, its match index never exceeds the prefix on which both logs agree, whatever stale messages and replies are about, over all prudent runs |
| `ClusterSafety.RecordsMatch` | src/storage/raft/core/raft_core_append.cpp:169-181 | log matching over time: a record held at any time by any replica and the record held later at that index by any replica are the same if and only if their terms are, and then so is everything before, over all prudent runs |
| `ClusterSafety.LeaderOnlyAppends` | src/storage/raft/raft_log.cpp:107-130 | while a replica leads one term its log only grows, over all prudent runs |
| `ClusterSafety.ReadsAreLinearizable` | src/storage/replica/read_tracker.cpp:23-125 | when a read is answered, its index covers everything any replica had committed when it began, and the log up to the applied index it is answered at contains all of it, over all prudent runs |
| `ReadState.ReadsSeeCommitted` | src/storage/replica/replica_loop.cpp:288-311 | and the state machine has really been given all of it, if no drain has passed over a write |
| `ReadState.GivenAll` | src/storage/replica/replica_loop.cpp:288-311 | drains that pass over nothing hand over exactly the records between the first and the last of their cursors |
| `ClusterSafety.CursorsInOrder` | src/storage/raft/raft_apply.cpp:14-35 | in every state that prudent runs reach, snapshot index <= last applied <= commit index <= last log index, and the log window is numbered from the snapshot on |
| `ClusterSafety.StepKeeps` | src/storage/raft/core/raft_core_append.cpp:126-339 | every handler, send, commit, snapshot, change of members, crash and torn write keeps the cluster invariant, if the step is prudent and the leaders turned away as unknown are on record |
| `ClusterSafety.RunKeeps` | src/storage/replica/raft_step.cpp:28-45 | so does every prudent sequence of dispatches, each persisted before its messages leave |
| `ClusterReplication.AppendEntriesKeeps` | src/storage/raft/core/raft_core_append.cpp:126-234 | accepting or rejecting any AppendEntries message, stale or not, from a known or an unknown sender, keeps the invariant under that condition |
| `ClusterReplication.ClampIsSafe` | src/storage/raft/raft_apply.cpp:16-20 | clamping the leader's commit index to the follower's last index is safe whenever the probe did not start below the point where the logs part |
| `ClusterReplication.BackOffIsSafe` | src/storage/raft/raft_replication.cpp:125-136 | backing off never moves the probe below the point where the logs part, as long as the follower has not turned the leader away as unknown |
| `ClusterReplication.AppendReplyKeeps` | src/storage/raft/core/raft_core_append.cpp:236-301 | replies, stale ones included, keep next and match indices sound |
| `ClusterReplication.CommitKeeps` | src/storage/raft/core/raft_core_append.cpp:317-339 | advancing the commit index commits only records a quorum holds |
| `ClusterReplication.SendKeeps` | src/storage/raft/raft_replication.cpp:143-157 | sending records or a snapshot to a peer keeps the invariant |
| `ClusterReplication.SubmitKeeps` | src/storage/raft/core/raft_core_append.cpp:58-73 | a proposal on a writable leader keeps the invariant |
| `ClusterReplication.TornAppendKeeps` | src/storage/persist/wal_store.cpp:41-58 | a crash that leaves any prefix of an accepted batch on disk keeps the invariant |
| `ClusterElection.StandUpKeeps` | src/storage/raft/core/raft_core_election.cpp:60-87 | standing for election keeps the invariant |
| `ClusterElection.RequestVoteKeeps` | src/storage/raft/core/raft_core_election.cpp:234-283 | granting or refusing any vote request keeps the invariant |
| `ClusterElection.VoteReplyKeeps` | src/storage/raft/core/raft_core_election.cpp:285-342 | counting any vote reply keeps the invariant |
| `ClusterElection.WinKeeps` | src/storage/raft/core/raft_core_election.cpp:359-380 | taking the lead, with its first record, keeps the invariant |
| `ClusterElection.ConfigureKeeps` | src/storage/raft/core/raft_core.cpp:109-141 | a member list taking effect on one replica, whatever lists are in force elsewhere, keeps the invariant |
| `ClusterElection.CrashKeeps` | src/storage/replica/replica_loop.cpp:361-401 | losing everything but term, vote and log, and going back to an earlier member list, keeps the invariant |
| `ClusterSnapshots.SnapshotKeeps` | src/storage/replica/snapshot_tracker.cpp:78-101 | compacting the log at an applied index keeps the invariant |
| `ClusterSnapshots.InstallSnapshotKeeps` | src/storage/raft/core/raft_core_snapshot.cpp:101-148 | installing or refusing a leader's snapshot keeps the invariant |
| `ClusterSnapshots.TornInstallKeeps` | src/storage/replica/snapshot_tracker.cpp:172-201 | a crash between publishing a received snapshot and rewriting the log keeps the invariant, if what recovery keeps above the snapshot was written on the snapshot's last record |
| `ClusterSnapshots.TornInstallExactly` | src/storage/persist/wal_store.cpp:117-154 | after such a crash the invariant holds with some continuation of the history if and only if the log has no record above the snapshot or has the snapshot's term at its index |
| `ClusterSnapshots.SnapshotReplyKeeps` | src/storage/raft/core/raft_core_snapshot.cpp:40-76 | a snapshot reply keeps next and match indices sound |
| `ClusterReads.BeginReadKeeps` | src/storage/raft/core/raft_core_read.cpp:9-45 | opening a read round keeps the invariant and records what was committed at that moment |
| `ClusterReads.AnswerCovers` | src/storage/replica/read_tracker.cpp:86-107 | when a read may be answered, nothing of a later term was committed when it began and its index covers what was |
| `Consensus.ElectionSafety` | src/storage/raft/core/raft_core_election.cpp:331-341 | a term that has a leader cannot give a quorum of votes to anybody else |
| `Consensus.LeaderCompleteness` | src/storage/raft/core/raft_core_election.cpp:261-274 | because a voter refuses candidates with older logs, later leaders start from logs that contain what was committed |
| `Consensus.LogMatching` | src/storage/raft/core/raft_core_append.cpp:169-181 | equal terms at one index mean equal prefixes |
| `Consensus.CommittedAgree` | src/storage/raft/raft_replication.cpp:178-199 | any two committed prefixes agree |
| `Core.RaftCore.HandleAppendEntries` | src/storage/raft/core/raft_core_append.cpp:126-234 | in place, performs exactly the follower step the cluster theorems are about, replies as it does, and its effects bring the disk to the new term, vote and log |
| `Core.RaftCore.HandleAppendResponse` | src/storage/raft/core/raft_core_append.cpp:236-301 | performs the leader's reply step; after an answer it was waiting for, the peer's match index is the larger of what was known and acknowledged, every record of the term that the leader and a majority of the voters are known to hold is committed, and the commit index has moved only to such a record |
| `Core.RaftCore.TryUpdateCommitIndex` | src/storage/raft/core/raft_core_append.cpp:317-339 | the scan computes the cluster's commit rule |
| `Core.RaftCore.HandleRequestVote` | src/storage/raft/core/raft_core_election.cpp:234-283 | grants a vote if and only if both are voters, the vote of the term is free or this candidate's, and the candidate's last record is not older by term and then index; a vote or term change is always among the effects to save |
| `Core.RaftCore.HandleVoteResponse` | src/storage/raft/core/raft_core_election.cpp:285-342 | counts a vote once; the one that completes a majority leaves a leader of the same term with its first record, which is sent to every other member |
| `Core.RaftCore.BecomeCandidate` | src/storage/raft/core/raft_core_election.cpp:60-87 | a voter that is ready enters the next term with its own vote and asks every other voter, or leads at once where no other vote is needed; new term, vote and first record are saved together; anybody else does nothing |
| `Core.RaftCore.BecomeLeader` | src/storage/raft/core/raft_core_election.cpp:359-380 | fresh progress, first record, one message per peer, commit if alone |
| `Core.RaftCore.Broadcast` | src/storage/raft/raft_replication.cpp:143-157 | one message per peer in member order: records from its next index, or the snapshot if none is on its way |
| `Core.RaftCore.Propose` | src/storage/raft/core/raft_core_append.cpp:58-73 | a writable leader appends the record and sends every other member the records from its next index on, or its snapshot where those are gone and none is under way; alone, it commits; no effect elsewhere |
| `Core.RaftCore.HandleInstallSnapshot` | src/storage/raft/core/raft_core_snapshot.cpp:25-38 | installs a complete snapshot unless the log covers it, with the members in its header, and asks for the log to be rewritten to what was retained |
| `Core.RaftCore.ApplyConfigEntry` | src/storage/raft/core/raft_core.cpp:123-141 | members and voters after each kind of config record, stepping down exactly when no longer a member; fails exactly for an unknown replica to promote |
| `Core.RaftCore.HandleSnapshotResponse` | src/storage/raft/core/raft_core_snapshot.cpp:40-76 | clears the transfer and raises the peer's progress to the watermark |
| `CoreRuns.ElectedIsRun` | src/storage/raft/core/raft_core_election.cpp:359-380 | what becoming leader does is a run of cluster steps |
| `CoreRuns.TimeoutIsRun` | src/storage/raft/core/raft_core_election.cpp:60-87 | what an election timeout does is a run of cluster steps |
| `CoreRuns.VoteReplyIsRun` | src/storage/raft/core/raft_core_election.cpp:285-342 | what a vote reply does is a run of cluster steps |
| `CoreRuns.ProposeIsRun` | src/storage/raft/core/raft_core_append.cpp:58-73 | what a proposal does is a run of cluster steps |
| `CoreRuns.AppendReplyIsRun` | src/storage/raft/core/raft_core_append.cpp:236-301 | what an append reply does is a run of cluster steps |
| `CoreRuns.ConfigIsRun` | src/storage/raft/core/raft_core.cpp:123-141 | applying a config record is a run of cluster steps; a leader that stays a member stays a voter |
| `CoreRuns.InstallIsRun` | src/storage/raft/core/raft_core_snapshot.cpp:25-38 | installing a snapshot with its members is a run of cluster steps |
| `Executor.RaftEffectExecutor.PersistEffects` | src/storage/replica/raft_step.cpp:12-26 | term and vote reach the disk before the log, an append and a rewrite together are refused, and a failed write leaves only what came before it |
| `Executor.RaftEffectExecutor.Execute` | src/storage/replica/raft_step.cpp:28-45 | messages leave only if the disk reproduces the state that sent them |
| `RaftLog.MergeFollows` | src/storage/raft/raft_log.cpp:132-196 | merging a slice of a matching log whose beginning is held never reports a gap, loses nothing before the first conflict, keeps a longer tail that does not conflict, and otherwise ends with exactly the leader's records |
| `RaftLog.MergeMirrorsDisk` | src/storage/raft/raft_log.cpp:132-196 | for any input the window stays contiguous, append and rewrite are alternatives, and a disk that mirrored memory mirrors it again |
| `RaftLogClass.LogStore.AppendEntriesFromLeader` | src/storage/raft/raft_log.cpp:132-196 | the in-place merge loop computes the merge, keeps the request index equal to a scan, and changes nothing on a gap |
| `RaftLogClass.LogStore.FindRequest` | src/storage/raft/raft_log.cpp:74-83 | the index look-up returns what a scan for the first write with this id returns |
| `RaftLogClass.FirstRequestIsFirst` | src/storage/raft/raft_log.cpp:74-83 | the scan returns a record that carries the id with none before it, or there is none |
| `RaftLogClass.LogStore.RebuildRequestIndex` | src/storage/raft/raft_log.cpp:57-72 | the rebuilt index agrees with a scan for every id; the first occurrence wins |
| `RaftLogClass.LogStore.AppendNewEntry` | src/storage/raft/raft_log.cpp:107-130 | the record is numbered next after the last and indexed incrementally |
| `RaftLogClass.LogStore.Truncate` | src/storage/raft/raft_log.cpp:199-225 | compaction succeeds exactly for an index inside the log and otherwise changes nothing |
| `RaftLogClass.LogStore.InstallSnapshot` | src/storage/raft/raft_log.cpp:227-257 | records after the snapshot survive exactly if the log agrees with it |
| `RaftLogClass.LogStore.UpdateEntries` | src/storage/raft/raft_log.cpp:259-262 | reloaded records are indexed as a scan would find them |
| `RaftLogClass.CompactionKeepsTerms` | src/storage/raft/raft_log.cpp:199-225 | compaction changes no term or record at or above the new snapshot index |
| `Replication.RaftReplication.TryAdvanceCommitIndex` | src/storage/raft/raft_replication.cpp:173-204 | the nested scan yields the largest current-term index not above the quorum-th largest of the own last index and the match indices, or the old commit index; that is, everything of the term that a majority holds is committed and nothing else is |
| `Replication.CommittedByCount` | src/storage/raft/raft_replication.cpp:173-204 | the order statistic of the match indices commits exactly what the leader and a majority of voters hold |
| `Replication.CommitRuleIsOrderStatistic` | src/storage/raft/raft_replication.cpp:173-204 | for a voting leader with unique member ids that order statistic is the rule of the cluster theorems |
| `Replication.QuorumMark` | src/storage/raft/raft_membership.cpp:110-115 | at least k of a list reach n exactly when its k-th largest does |
| `Replication.RaftReplication.CountHolders` | src/storage/raft/raft_replication.cpp:184-192 | the inner loop counts the leader once and every other voter whose match index reaches the record |
| `Replication.RaftReplication.HandleAppendOk` | src/storage/raft/raft_replication.cpp:117-123 | match never falls, next follows match, and next stays above match for every peer |
| `Replication.RaftReplication.HandleAppendFailed` | src/storage/raft/raft_replication.cpp:125-136 | a failed probe strictly lowers next until it reaches match + 1 and never goes below |
| `Replication.RaftReplication.UpdateSnapshotWatermark` | src/storage/raft/raft_replication.cpp:71-92 | watermark, match and next only rise |
| `Replication.RaftReplication.MarkSnapshotInflight` | src/storage/raft/raft_replication.cpp:109-115 | at most one snapshot is on its way to a peer |
| `Replication.RaftReplication.ResetForLeader` | src/storage/raft/raft_replication.cpp:57-69 | a new leader starts with no known progress and next after its last record |
| `Membership.RaftMembership.AddLearner` | src/storage/raft/raft_membership.cpp:79-89 | the voters do not change and a present member is left alone |
| `Membership.RaftMembership.PromoteVoter` | src/storage/raft/raft_membership.cpp:91-101 | exactly one id becomes a voter, or the id is unknown and nothing changes |
| `Membership.RaftMembership.RemoveMember` | src/storage/raft/raft_membership.cpp:103-108 | exactly the member with this id goes; the rest keep their order |
| `Membership.RaftMembership.HasQuorum` | src/storage/raft/raft_membership.cpp:110-115 | with unique ids the test is a majority of the voter set |
| `Membership.AdjacentMajoritiesMeet` | src/storage/raft/raft_membership.cpp:91-115 | majorities on either side of one promotion or removal share a voter (section 4.1 of Ongaro's dissertation) |
| `Membership.AdjacentConfigsOverlap` | src/storage/raft/raft_membership.cpp:91-115 | two adjacent voter sets satisfy the overlap condition of the cluster theorems |
| `Election.RaftElection.BecomeFollower` | src/storage/raft/raft_election.cpp:44-58 | a vote is forgotten only together with its term |
| `Election.RaftElection.BecomeCandidate` | src/storage/raft/raft_election.cpp:34-41 | next term, own vote, own grant |
| `Election.RaftElection.GrantVoteTo` | src/storage/raft/raft_election.cpp:72-82 | granted exactly if free or already given to this candidate; a given vote stands |
| `Apply.RaftApply.ExtractCommittedEntries` | src/storage/raft/raft_apply.cpp:37-86 | a batch is the run up to the first overflowing record, followed by the config changes directly after a record that overflowed the entry budget |
| `Apply.BatchIsRun` | src/storage/raft/raft_apply.cpp:57-71 | a batch is gap-free if and only if no config change directly follows the record that overflowed the entry budget; has_more is then exact |
| `Apply.DrainIsExact` | src/storage/replica/replica_loop.cpp:288-311 | draining applies every committed record once and in order if and only if no config change directly follows a write that overflows a batch of 256 |
| `Apply.ApplyCommittedEntries` | src/storage/replica/replica_loop.cpp:288-311 | the loop ends, counts everything committed as applied, and hands over exactly what DrainIsExact speaks about |
| `Apply.OverflowLosesAWrite` | src/storage/raft/raft_apply.cpp:67-71 | 257 writes and a config change: what is applied is the first 256 and the change, and never the 257th write |
| `Apply.RaftApply.AdvanceCommitFromLeader` | src/storage/raft/raft_apply.cpp:16-20 | monotone, and bounded by the last log index |
| `Apply.RaftApply.HasCommittedCurrentTermEntry` | src/storage/raft/raft_apply.cpp:88-101 | true exactly if the snapshot or a committed record after it is of this term |
| `Reads.ReadTracker.Advance` | src/storage/replica/read_tracker.cpp:70-125 | a pending read goes on waiting exactly while its term is led and a majority of its voters or a record to apply is missing; it is answered exactly when the cluster's read rule allows it, fails for nothing but lost leadership or a refused confirmation, and none is lost |
| `ReadPasses.ReadsAreServed` | src/storage/replica/read_tracker.cpp:70-125 | over all prudent runs, as long as a leader goes on leading the term in which it began a read and has not answered it, the read is pending, no pass fails it, and a pass answers it if and only if a majority of its voters has confirmed and its index is applied |
| `Reads.ReadTracker.OnReadQuorumResponse` | src/storage/replica/read_tracker.cpp:54-68 | only a reply to the read's own round, in its term and from one of its voters, is counted, and once |
| `Reads.ReadTracker.Establish` | src/storage/replica/read_tracker.cpp:23-52 | a sequence number is never reused; the round is the cluster model's |
| `Proposals.ProposalTracker.SubmitBatch` | src/storage/replica/proposal_tracker.cpp:16-96 | whatever has become of the log: every caller of a batch is answered or waits for exactly one request, nothing already logged changes, request ids in the log stay pairwise distinct, and on a writable leader the first call for every new id is left waiting for its own write |
| `Proposals.ProposalTracker.SubmitOne` | src/storage/replica/proposal_tracker.cpp:22-92 | a write is proposed only if its id is in no applied record, no tracked request and nowhere in the log, compacted part included; an immediate answer is the recorded one |
| `Proposals.RequestLog.Find` | src/storage/replica/proposal_tracker.cpp:73-84 | the look-up in the log object's index finds a record that carries the id, or none of the window does |
| `Proposals.ProposalTracker.TakeResult` | src/storage/replica/proposal_tracker.cpp:122-130 | a new request gets its index, or its callers get the status of the failed proposal |
| `Proposals.ProposalTracker.TakeResults` | src/storage/replica/proposal_tracker.cpp:109-131 | afterwards every new request has its record at its index or its callers have been answered; the others are as they were |
| `Proposals.ProposalTracker.Advance` | src/storage/replica/proposal_tracker.cpp:134-166 | for any log: a caller is told success once its index is committed, for a compare-and-set what its record says once it is applied, and otherwise goes on waiting, or is turned away if the replica does not lead; while it leads and tracked records are in place, a caller is answered only if its own write is committed |
| `Reports.SuccessExactly` | src/storage/replica/proposal_tracker.cpp:134-162 | a request is placed at one time and a pass tells its callers the result at a later one: whatever replica has committed that index then or ever after has the caller's own record there if and only if the replica's record at that index still has the term the request was placed in, over all prudent runs |
| `Reports.LeaderKeepsPlace` | src/storage/replica/proposal_tracker.cpp:163-165 | while the replica leads the term in which its requests were placed, all of them stay in place and meet that condition |
| `ExactlyOnce.IdsAreUnique` | src/storage/replica/proposal_tracker.cpp:33-92 | if every write proposed has an id that is nowhere in its leader's whole log, no log of any replica ever holds an id twice, whatever leaders come and go, over all prudent runs |
| `Proposals.LostWriteIsReported` | src/storage/replica/proposal_tracker.cpp:139-165 | a run in which it is not: a write is proposed, another leader's record replaces it and brings its commit index, and the pass that follows reports success |
| `Proposals.ProposalTracker.SettleEntry` | src/storage/replica/proposal_tracker.cpp:139-162 | one request, for any log: told once its index is committed, or applied if the result matters, and forgotten once applied |
| `Proposals.ProposalTracker.FailAll` | src/storage/replica/proposal_tracker.cpp:168-173 | everybody waiting is answered and nothing stays tracked |
| `Proposals.ProposalTracker.FailRequest` | src/storage/replica/proposal_tracker.cpp:202-209 | one request goes and its callers are answered |
| `Crc.UpdateCrc32` | src/common/crc.h:33-40 | the table loop computes the bit-at-a-time checksum of every byte string |
| `Crc.BuildTable` | src/common/crc.h:12-29 | every row is eight bit steps of its index |
| `Crc.ByteStep` | src/common/crc.h:37 | shifting by a byte and adding a row does the work of eight bit steps |
| `Crc.DivideByteLinear` | src/common/crc.h:18-23 | polynomial division distributes over exclusive or |
| `Crc.CrcInPieces` | src/common/crc.h:33-40 | any chunking gives the checksum of the concatenation |
| `Crc.OneByteIsSeen` | src/common/crc.h:33-40 | changing one byte anywhere in a string of any length changes its checksum |
| `Crc.CheckValue` | src/common/crc.h:12-40 | polynomial, bit order and inversions are those of CRC-32: the checksum of the digits 1 to 9 is the published check value |
| `Streams.ChecksumWriter.WriteRaw` | src/common/binary/base.h:145-163 | the running checksum is that of everything written so far |
| `Codec.ParseEntryBack` | src/common/binary/codec.h:233-261 | decoding an encoded record gives it back, through all nested codecs, and leaves what followed |
| `Codec.ParseEntryDetermines` | src/common/binary/codec.h:233-261 | only the encoding of a record decodes to it, and what is decoded fits its fields |
| `Codec.ParseStringBack` | src/common/binary/codec.h:101-121 | strings round-trip, the empty one included |
| `Codec.ParsePeerBack` | src/common/binary/codec.h:202-216 | peers round-trip through node id, replica id and endpoint |
| `Codec.IntRoundTrip` | src/common/binary/codec.h:41-62 | little-endian two's complement round-trips over the whole range of its width |
| `Codec.ParseOpBack` | src/common/binary/codec.h:155-167 | operations round-trip |
| `Codec.ParseOpDetermines` | src/common/binary/codec.h:155-167 | bytes that are accepted are the encoding of the operation returned, so every other code is refused |
| `Codec.ParseFrameBack` | src/common/binary/codec.h:274-326 | a frame decodes to its record whatever follows it |
| `Codec.ParseFrameCut` | src/common/binary/codec.h:292-312 | a frame cut anywhere is reported as partial, and as a clean end only if nothing of it is there |
| `Codec.ParseFrameDetermines` | src/common/binary/codec.h:292-326 | bytes that decode are, length, checksum and all, the frame of what they decode to, followed by what is left |
| `Damage.FrameDamage` | src/common/binary/codec.h:292-326 | a frame with one changed byte in its checksum or its payload is refused, whatever follows it |
| `Streams.Reader.ReadRaw` | src/common/binary/base.h:72-87 | end of input only at the very start, a partial read if something but not enough is left |
| `Streams.Reader.ReadEntry` | src/common/binary/codec.h:248-260 | the decoder that advances a position computes the format's parser |
| `Streams.Reader.ReadFrame` | src/common/binary/codec.h:292-326 | so does the frame decoder, checksum included; ParseFrameDetermines says which bytes that accepts |
| `Streams.Writer.WriteEntry` | src/common/binary/codec.h:235-246 | the encoder appends exactly the format |
| `Streams.EncodeFrame` | src/common/binary/codec.h:274-290 | length, CRC-32 and payload, or an error for an empty or oversized payload |
| `Wal.TornTail` | src/storage/persist/wal_store.cpp:156-198 | for any consecutive log and any cut, reading returns exactly the records whose frames are complete and reports an error exactly if the cut is inside a frame |
| `Damage.WalDamage` | src/storage/persist/wal_store.cpp:156-198 | with one changed byte in the checksum or the payload of a frame, reading the log returns exactly the records before that frame and reports an error |
| `Wal.ReadIsExact` | src/storage/persist/wal_store.cpp:156-198 | whatever is on disk, what is read was written there, and no error is reported exactly if nothing else is there |
| `Wal.HelpExactly` | src/storage/persist/wal_store.cpp:117-154 | recovery asks for help if and only if the file is not an intact log that goes on where the snapshot ends; without asking it keeps every record above the snapshot |
| `Wal.CrcCoderSound` | src/common/binary/codec.h:274-326 | the checksummed frames have the properties torn-tail recovery needs, for any checksum |
| `Wal.ReadIsConsecutive` | src/storage/persist/wal_store.cpp:170-196 | whatever is on disk, what is read is consecutive and can be written again |
| `Wal.RecoverIsContiguous` | src/storage/persist/wal_store.cpp:117-154 | whatever is on disk, recovery returns records numbered from the snapshot on, and the file then holds exactly those |
| `Wal.RecoverTwice` | src/storage/persist/wal_store.cpp:117-154 | a second recovery returns the same records and finds nothing wrong |
| `Wal.RecoverAfterCrash` | src/storage/persist/wal_store.cpp:124-152 | a crash between publishing a snapshot and rewriting the log, on top of a torn write, recovers the complete records above the snapshot and asks for help exactly if one was torn |
| `Wal.RecoverAfterReceived` | src/storage/persist/wal_store.cpp:124-136 | a crash between publishing a received snapshot and rewriting the log recovers what installing it would have retained if and only if no record follows it in the log or the log has its term at its index |
| `WalStore.WalStore.ReadFromDisk` | src/storage/persist/wal_store.cpp:156-198 | the reading loop computes the specification above |
| `WalStore.WalStore.Recover` | src/storage/persist/wal_store.cpp:117-154 | the in-place recovery computes the specification and rewrites the file |
| `WalStore.WalStore.AppendBatch` | src/storage/persist/wal_store.cpp:41-58 | all frames are appended, or the append fails leaving at most part of the frames before the offending one |
| `WalStore.WalStore.Rewrite` | src/storage/persist/wal_store.cpp:81-115 | the new log replaces the old one as a whole, or nothing changes |
| `WalStore.FileWriter.WriteRaw` | src/common/binary/base.h:103-117 | buffering loses and reorders nothing, and the file only grows |
| `SnapshotTransfer.SnapshotReceiver.OnChunk` | src/storage/replica/snapshot_tracker.cpp:131-170 | under lost, repeated, reordered and restarted chunks of any senders, the file being received is the session sender's prefix up to the next offset, and it is finished only when complete |
| `SnapshotTransfer.SnapshotReceiver.AppendChunk` | src/storage/persist/snapshot_store.cpp:271-289 | a first chunk starts the file over, a later one must fit its end |
| `SnapshotTransfer.ReadChunk` | src/storage/persist/snapshot_store.cpp:203-222 | the bytes at the offset, eof exactly at the end, an error beyond it |
| `SnapshotTransfer.SendSnapshot` | src/storage/raft/raft_sender.cpp:118-147 | the send loop ends after covering the file in order, and only its last chunk says so |
| `SnapshotTransfer.Transfer` | src/storage/raft/raft_sender.cpp:118-147 | sender and receiver together: on an undisturbed connection the receiver ends with the sender's file |
| `SnapshotFile.WriterIsAccepted` | src/storage/persist/snapshot_store.cpp:55-134 | the verifier accepts every file the writer produces |
| `SnapshotFile.VerifySnapshotFile` | src/storage/persist/snapshot_store.cpp:55-90 | verification in 64 KiB buffers computes the one-pass verdict; VerifyDetermines says which files that accepts |
| `Damage.VerifyDetermines` | src/storage/persist/snapshot_store.cpp:55-90 | an accepted snapshot file is its body followed by the trailer of that body: its checksum, the file's length and the counts returned |
| `Damage.SnapshotDamageExactly` | src/storage/persist/snapshot_store.cpp:55-90 | a change of one byte of an accepted file is accepted if and only if it is in one of the two counts, which nothing guards, and leaves them not negative |
| `SnapshotFile.WriteSnapshot` | src/storage/persist/snapshot_store.cpp:97-134 | body pieces in order, then counts, checksum, length and magic number |
| `MetaIndex.RenamedIsExact` | src/meta/store/meta_index.cpp:56-62 | an upsert keeps a name index exact if and only if the new name is free and the old one has not been given to somebody else |
| `MetaIndex.ErasedIsExact` | src/meta/store/meta_index.cpp:77-93 | erasing an entry, with its set once empty, keeps a set index exact |
| `MetaIndex.InsertedIsExact` | src/meta/store/meta_index.cpp:95-101 | inserting an entry keeps a set index exact |
| `MetaStore.IndexIsDetermined` | src/meta/store/meta_store.cpp:81-100 | only one index belongs to given records, so the incrementally kept index equals the rebuilt one |
| `MetaStore.RebuildIndex` | src/meta/store/meta_store.cpp:81-100 | in whatever order the records are walked, every name resolves to an owner, and the rebuilt index is exact if and only if no two live records share a name |
| `MetaStore.MetaStoreTxn.PutTable` | src/meta/store/meta_store_txn.cpp:75-82 | the index stays exact if and only if the name taken is free and a name given up is not another live table's |
| `MetaStore.MetaStoreTxn.DeleteTable` | src/meta/store/meta_store_txn.cpp:118-128 | the index stays exact if and only if the name has not been given to a live table |
| `MetaStore.MetaStoreTxn.PutDatabase` | src/meta/store/meta_store_txn.cpp:19-26 | the index stays exact if and only if the name is free |
| `MetaStore.MetaStoreTxn.DeleteDatabase` | src/meta/store/meta_store_txn.cpp:51-61 | the index stays exact |
| `MetaStore.MetaStoreTxn.PutNode` | src/meta/store/meta_store_txn.cpp:132-138 | a node moves between pools and the index stays exact |
| `MetaStore.MetaStoreTxn.PutReplica` | src/meta/store/meta_store_txn.cpp:179-186 | a replica moves between nodes and both replica indexes stay exact |
| `MetaStore.MetaStoreTxn.PutReplicas` | src/meta/store/meta_store_txn.cpp:188-207 | a batch that names each replica once keeps both replica indexes exact |
| `MetaStore.MetaStoreTxn.DeleteReplica` | src/meta/store/meta_store_txn.cpp:219-230 | both replica indexes stay exact |
| `MetaStore.Store.WriteWith` | src/meta/store/meta_store.cpp:55-79 | a transaction of any operations is published as a whole with an exact index, or not at all; it is published if and only if it succeeds and is saved or has nothing to save, and durable records change only if saved |
| `MetaStore.DeadTableTakesName` | src/meta/store/meta_index.cpp:56-62 | writing a dead table again after its name was reused breaks the index although all live names are unique |
| `Lifecycle.MembersAreAlive` | src/meta/reconcile/replica_group_membership_reconciler.cpp:51-84 | in every reachable state the members of a group are distinct and have records that are neither being deleted nor deleted |
| `Lifecycle.NobodyIsForgotten` | src/meta/reconcile/replica_group_membership_reconciler.cpp:51-84 | in every reachable state every replica record belongs to a shard that has a group, and is one of its members if and only if it is not on its way out |
| `Convergence.DroppedLeavesNothing` | src/meta/reconcile/replica_group_plan_reconciler.cpp:101-138 | from every reachable state there is a run of the reconcilers after which nothing is left of a shard whose table is being dropped |
| `Convergence.PresentSettles` | src/meta/reconcile/replica_group_membership_reconciler.cpp:117-245 | from every reachable state, and for any choice of nodes, there is a run after which the group of a kept table has as many members as wanted, all ready, and there are no other records of it |
| `Lifecycle.NoWayBack` | src/meta/reconcile/replica_phase_reconciler.cpp:11-54 | the last two phases are never left except by deleting the record, and a deleted record's id is never seen again |
| `Lifecycle.NeverIssuedTwice` | src/meta/reconcile/replica_group_membership_reconciler.cpp:363-392 | adding n members adds n ids to all those ever handed out |
| `Lifecycle.StepKeeps` | src/meta/reconcile/replica_group_plan_reconciler.cpp:62-138 | every transaction keeps the invariant, and removes a record only from its last phase |
| `Lifecycle.RunKeeps` | src/meta/reconcile/replica_group_membership_reconciler.cpp:117-245 | so does every interleaving of plan, phase, membership, heartbeat, client and restart steps |
| `Lifecycle.CleanupKeeps` | src/meta/reconcile/replica_group_membership_reconciler.cpp:248-283 | cleaning up never touches a member's record |
| `Lifecycle.RetireKeeps` | src/meta/reconcile/replica_group_membership_reconciler.cpp:51-84 | victims leave the group and are marked in one transaction, nobody else is touched, and nothing happens without a victim among the members; the invariant is kept |
| `Lifecycle.PhasesKeep` | src/meta/reconcile/replica_phase_reconciler.cpp:11-54 | the phase pass never retires a member |
| `Lifecycle.PhasesSettle` | src/meta/reconcile/replica_phase_reconciler.cpp:11-54 | while observations stay the same, two passes bring every phase into agreement with what is reported of the replica and its node, and further passes change nothing |
| `Lifecycle.PlanKeeps` | src/meta/reconcile/replica_group_plan_reconciler.cpp:101-138 | a group goes only with its table, so its numbers are never started over |
| `Lifecycle.Reconciler.RetireMembers` | src/meta/reconcile/replica_group_membership_reconciler.cpp:51-84 | the two loops compute the retirement transaction: after them the victims among the members have left and are on their way out |
| `Lifecycle.Reconciler.AddReplicas` | src/meta/reconcile/replica_group_membership_reconciler.cpp:355-394 | the loop computes the add transaction |
| `Lifecycle.Reconciler.ReconcilePhases` | src/meta/reconcile/replica_phase_reconciler.cpp:60-85 | writing phases back one by one computes the pass, in any order |
| `Placement.SelectTableNodes` | src/meta/placement/node_selector.cpp:72-133 | succeeds exactly if there are enough eligible nodes; every shard gets that many different ones, spread over the data centres, and in no data centre a node is passed over for one that had more replicas |
| `Placement.SelectShard` | src/meta/placement/node_selector.cpp:110-130 | a data centre that could have given more has at most one less than any other, within one no node is passed over for a fuller one, and every choice is counted |
| `Placement.SelectOne` | src/meta/placement/node_selector.cpp:54-68 | no unselected candidate is better than the one returned; none only if all are selected |

## Left out

- In the cluster model member lists change by steps of their own, with any list around one of a fixed family of voter sets; that each list comes from the config records a replica has applied, one at a time, is shown for the object (Core.RaftCore.ApplyConfigEntry) and not used in the cluster proofs. The overlap of the voter sets in force is therefore a condition and not derived from the log.
- In the cluster model a candidate does not lose, through a config change, a voter that has already voted for it. In the source this cannot happen, because every dispatch drains what is committed before it ends, so a candidate has nothing left to apply.
- The pre-vote round is over-approximated: a replica may campaign at any time, so runs without pre-votes are included.
- The state of a state machine is represented by the records that produced it; the key-value engine, its compare-and-set results and the request records inside snapshots are not modelled.
- The follow-up broadcasts after a committed removal and the automatic promotion of learners in src/storage/raft/core/raft_core_append.cpp are separate send and propose steps of the cluster.
- Timers, ticks and election timeouts. That something can be done is shown by a run that does it; that it will be, under some fairness of timers and network, is not.
- Stall.NeverGetsOut: is about exchanges of new probes and their answers; an old answer that arrives late after all can still help, and so can a change of leader.
- CatchUp.CatchesUp: the follower counts the leader among its members, and what it has of the leader's term is in the leader's log, as in every reachable state.
- Damage.WalDamage: changes in the length field of a frame are not covered.
- Damage.VerifyDetermines: for files with a body of at least four bytes; a shorter body cannot hold a header.
- Core.RaftCore.HandleAppendResponse: stops after the commit rule; the learner promotion that may follow is a proposal of its own.
- Core.RaftCore.HandleInstallSnapshot: the chunks before the last, which only change term and role, are the cluster's HearTerm steps.
- Core.RaftCore.constructor: does not relate its progress maps to the cluster's initial state, because a follower's progress maps are reset before they are used.
- ClusterVotes.OneLeaderPerTerm: requires the overlap condition, which ElectionSafetyExactly shows to be necessary.
- ClusterSafety.StateMachineSafety: over prudent runs, which StrangersBreakAgreement shows to be needed. A run that is not prudent need not diverge: that also takes a differing record.
- ClusterSafety.RecordsMatch: over prudent runs; TornInstallExactly shows how log matching fails otherwise. The other theorems over prudent runs are LeadersHaveCommitted, MatchIsSound, CursorsInOrder, LeaderOnlyAppends, ReadsAreLinearizable, RunKeeps and StepKeeps of ClusterSafety, ReadsSeeCommitted, SuccessExactly, LeaderKeepsPlace, IdsAreUnique, NeverStuck, CanStall and ReadsAreServed.
- ClusterSnapshots.TornInstallKeeps: whether agreement of what is committed survives a crash that leaves a foreign tail on a received snapshot is not proved; that the invariant does not is.
- ClusterSnapshots.InstallSnapshotKeeps: the members in the snapshot's header take effect in a Configure step that follows, as InstallIsRun shows.
- ReadState.ReadsSeeCommitted: the drains since the snapshot are given by their cursors.
- Reads.ReadTracker.Advance: reads whose caller has gone away are dropped by the cluster's FailRead step and have no state of their own; the look-up of the value is not modelled.
- Reads.ReadTracker.Establish: sequence numbers are unbounded integers instead of 64-bit ones.
- Apply.ApplyCommittedEntries: a state machine that refuses a record stops the replica in the source and is not modelled.
- Proposals.ProposalTracker.SubmitBatch: payload hashes are uninterpreted, except that payloads of different operations must hash differently; without that a compare-and-set could join a request that has been answered.
- Proposals.ProposalTracker.SubmitOne: waiting callers are a set, so the order in which they are answered is not captured.
- Streams.EncodeFrame: takes the checksum of the finished payload; the source updates it field by field, which ChecksumWriter.WriteRaw and CrcInPieces show to be the same.
- Codec.ParseStringBack: strings of 2 GiB and more, whose length does not fit the format, are outside the contracts.
- WalStore.WalStore.Rewrite: the temporary file and its rename are one atomic replacement.
- SnapshotTransfer.SnapshotReceiver.OnChunk: input/output faults while a chunk is written are not modelled.
- SnapshotFile.WriteSnapshot: the encodings of header, pairs and request records are given as byte strings.
- MetaStore.Store.WriteWith: transactions whose operations break their own exact conditions are outside its contract.
- MetaStore.MetaStoreTxn.PutReplicas: a batch that names a replica twice is outside its contract; the source never builds one.
- Lifecycle.RunKeeps: a heartbeat may report anything about a replica that has a record, which is more than the source allows; victims and nodes are chosen freely within the group instead of by rank.
- Lifecycle.Reconciler.AddReplicas: record by record instead of collecting the records first; both happen inside one transaction.
- Placement.SelectTableNodes: node ids are ordered by an arbitrary strict total order instead of by bytes; the priority queue is a scan for its top.
- gRPC services, protobuf conversion, SDK, command line, node agent, JSON persistence, metrics, logging, configuration and benchmarks.
- Shard ranges, routes, table phases beyond present, dropping and dropped, and node liveness: correct or not by inspection of a few lines, and would only add easy members.
