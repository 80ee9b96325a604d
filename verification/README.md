# Verified models of the replicated key/value labs

This project models five connected parts of the repository in Dafny and proves what they are for.

- **Raft** (`src/raft/raft.go`). `RaftPeer` gives every lock-held region as a function of the peer's
  state. `RaftServer` is the imperative form: a class with the program's fields, arrays and scanning
  loops, each method proved to do what the function says. `RaftWorld` puts any number of peers on a
  network that may lose, delay, repeat and reorder messages; services compact their peers at any time
  and leaders send their snapshots to followers that lag. `RaftInv` to `RaftInstall` prove the
  invariant step by step, and `RaftSafety` draws the consequences for whole runs, installed snapshots
  included: election safety, leader append-only, leader completeness, state machine safety, the fast
  backup of conflicts, and that no handler indexes outside a log. An installed snapshot can leave
  stray entries behind it, entries that do not continue it; log matching is stated for everything
  else, and the invariant says why stray entries do no harm: their terms are below the term that
  committed the snapshot, so they match no later leader, are never committed, and their holder wins
  no election. `RaftCompaction` treats the snapshot offset. The remaining modules say what Raft gets
  done. `RaftElectable`: who gets a vote, and that from every reachable state of two or more peers a
  leader can be elected. `RaftArrives`: from every such state any command can still reach every
  service, through an election, backing up, snapshots, commit, heartbeats and the appliers.
  `RaftCatchUp` and `RaftReplies` tie a follower's commit index, a leader's match indexes and its
  backing up to the history of the run.
- **Sharded key/value service** (`src/shardkv/server.go`). `ShardGroup` is one replica group as a
  deterministic machine over its log, `ShardServer` its imperative form. `ShardWorld` lets many groups
  follow one sequence of configs at their own speeds; a proposal, or an answer to another group, may
  come from any earlier state of its group. `ShardSafety` proves that every shard has one place, that
  the union of the shards is one key/value map on which client operations act, that no write is
  applied twice, and that configs are entered one by one. `ShardLaw` says what that map holds: for
  every key the last put and the appends since, over the whole run and all groups, and that a new
  request at the serving group takes effect. `ShardProgress`: from every reachable state migration can
  be completed.
- **Linearizability checker** (`src/porcupine/checker.go`, `bitset.go`, `src/models/kv.go`).
  `Linearizability` says what is decided. `SearchSpace` and `Search` prove the depth-first search with
  memory on values; `EntryList`, `Bitset`, `CheckerState` and `Checker` carry it to the program's linked
  nodes, bit words and hash buckets. `Locality` proves the theorem of Herlihy and Wing for key/value
  histories. `KvMeaning` says what linearizable means for key/value histories without stepping through
  a map: in some order that respects real time every get returns the last put before it and the
  appends since. `CheckOperations` joins everything: without a timeout the verdict is Ok exactly when
  the history of the whole map has such an order.
- **Shard allocator** (`src/shardctrler/server.go`). `Levelling` is the two-pointer loop, `Allocator`
  what rebalancing computes and achieves, `Controller` the history of configs, `Membership` which
  groups and servers a config lists, `CtrlServer` the imperative form, in which every map is walked in
  an arbitrary order.
- **Apply path** (`src/kvraft/server.go` with Raft's applier and snapshots). `KvApply` interleaves
  batches, the service's own snapshots and installed snapshots in every way; `KvServer` is the
  imperative form. `RaftCommitted` shows that a run of Raft gives the service what `KvApply` asks for,
  and `KvReplicas` puts a service on every peer of a cluster: services that have come equally far
  hold the same map and duplicate table. `KvLaw` says what the map holds in terms of the log alone,
  with the writes of `LastWrite`.

Time, randomness and goroutine scheduling appear as the free choice of the next step. Encoding and
decoding of messages and snapshots is the identity; commands are an abstract type. Strings of the
sharded service are sequences of bytes, because a key's shard is computed from its first byte. The
model stated here is about runs without restart; see "Left out".

Seven properties one might expect turn out not to hold of the code. Each is kept as the code has it,
with a concrete counterexample and the exact condition: log matching after an installed snapshot
(`InstallMatchesIff`, `InstallBreaksMatching`), a commit index that never falls once snapshots are
installed (`AppendLowersCommitIff`, `InstallThenHeartbeatLowersCommit`), that a follower commits every entry it
has acknowledged and is told is committed, which a heartbeat alone does not do (`CommitsExactly`,
`HeartbeatLeavesBehind`), that every cluster can elect a leader, which a single peer cannot
(`LeaderReachableIff`), that a candidate whose log extends the voter's gets its free vote, which fails
after an installed snapshot (`GrantsExtending`, `ExtendingCanBeRefused`), counts that differ by at most
one after rebalancing, which the allocator's tests ask for (`RebalanceEvenIff`,
`RebalanceCanBeUneven`), and a leave that keeps every shard on a live group (`LeaveListedIff`,
`LeaveCanStrand`).

## Model

| member | source | states |
|---|---|---|
| RaftSafety.ElectionSafety | src/raft/raft.go:174-186 | over a whole run, installed snapshots included, a term has at most one leader, although hearing from a leader clears the vote |
| RaftSafety.LogsMatch | src/raft/raft.go:187-233 | two logs of any peers at any times that agree on the term at an index are equal up to it, commands included, wherever the index is behind the snapshot or the peer never installed one |
| RaftSafety.LeaderAppendOnly | src/raft/raft.go:710-737 | a leader stays leader for its term and its log only grows |
| RaftSafety.LeaderCompleteness | src/raft/raft.go:856-888 | what a peer has committed is in the log of every leader of a later term, at any two times |
| RaftSafety.StateMachineSafety | src/raft/raft.go:739-784 | whatever two peers deliver at the same position, at any two times, is the same entry and carries that index |
| RaftSafety.NeverOutOfRange | src/raft/raft.go:843-846 | in every reachable state no heartbeat, replication, backup or apply slices outside a log |
| RaftSafety.BackupDescends | src/raft/raft.go:271-295 | every accepted conflict reply strictly lowers the next index and keeps it at least 1 |
| RaftSafety.CommitNeverFalls | src/raft/raft.go:235-239 | the commit index of a peer that never installed a snapshot never falls during a run |
| RaftSafety.StepKeeps | src/raft/raft.go:157-243 | every step of every peer and of the network keeps the global invariant |
| RaftSafety.AlwaysNumbered | src/raft/raft.go:721-733 | at any time of a run entry k of a stored log has the snapshot index plus k plus 1, and so have the entries of every request ever sent |
| RaftArrives.CommandArrives | src/raft/raft.go:710-784 | from every state of every run of two or more peers, and for any command, some run goes on to a state in which every peer has delivered it, in one new entry of a term nobody had reached |
| RaftArrives.CatchUp | src/raft/raft.go:813-854 | however far its log has gone another way, a follower can be brought to hold its leader's whole log, by entries, by backing up or by the snapshot, and the leader learns it |
| RaftArrives.Drain | src/raft/raft.go:739-784 | a peer can hand over all it has committed, and nothing else moves |
| RaftElectable.LeaderReachable | src/raft/raft.go:933-969 | from every state of every run of two or more peers, some run goes on to a leader of a term above all, whom everyone follows |
| RaftElectable.Elect | src/raft/raft.go:786-803 | that leader can be any peer with a latest log; its next indexes are all past its log, its match indexes zero but its own, and no log or commit index has changed |
| RaftElectable.LeaderReachableIff | src/raft/raft.go:933-969 | a cluster has a run with a leader exactly when it has two peers or more, because votes are counted only as replies arrive |
| RaftElectable.AloneNeverLeads | src/raft/raft.go:937-939 | a single peer never leads, as its elections wait for nobody |
| RaftElectable.VoteGrantedIff | src/raft/raft.go:622-660 | a vote is granted exactly when it is free and the candidate's whole log ends in a later term, or in the same term and is not shorter; a later term is joined in any case |
| RaftElectable.GrantsExtending | src/raft/raft.go:640-657 | a candidate whose log extends the voter's gets its free vote exactly when it does not end in an earlier term, and always when the logs are equal |
| RaftElectable.RunGrantsExtending | src/raft/raft.go:640-657 | in a run, a candidate that never installed a snapshot gets every free vote of a peer whose log it extends |
| RaftElectable.ExtendingCanBeRefused | src/raft/raft.go:640-657 | a candidate that, after an installed snapshot, is refused by a voter whose log it extends |
| RaftElectable.OneWouldGrant | src/raft/raft.go:640-657 | of any two peers at least one gets the other's vote once it asks in a term neither has reached |
| RaftCatchUp.CommitsExactly | src/raft/raft.go:230-239 | past what a follower had committed, an accepted request commits an index exactly when the leader has committed it and some accepted request with entries, of a leader of that term, reached it |
| RaftCatchUp.EntriesCommit | src/raft/raft.go:235-239 | a request whose entries reach the leader's commit index is committed that far at once |
| RaftCatchUp.HeartbeatLeavesBehind | src/raft/raft.go:206-239 | from every state of every run of two or more peers, some run leads to a follower that accepts a heartbeat behind an entry it is told is committed, and does not commit it |
| RaftCatchUp.SuccessIff | src/raft/raft.go:157-206 | success exactly when the term is not behind and the previous entry is stored or behind the snapshot, a conflict exactly when only that entry is missing |
| RaftCatchUp.HearsLeader | src/raft/raft.go:163-186 | whoever hears of a leader follows it in its term, with a free vote unless it followed one of that term already; an earlier term changes nothing |
| RaftReplies.MatchExactly | src/raft/raft.go:263-270 | a leader's match index of another peer reaches an index exactly when, in its term, a success reply to entries or a snapshot up to there has come from that peer |
| RaftReplies.BackupExactly | src/raft/raft.go:187-295 | a conflict reply tells where the follower's log ends, or the term at the rejected index and where its run starts; the next index goes to that end, behind the leader's last stored entry of that term, or to the start |
| RaftReplies.BackupSkipsConflicts | src/raft/raft.go:271-295 | above the new next index, up to the rejected one and past both snapshots, the two logs agree on no term: backing up skips nothing that matches |
| RaftTally.FirstInTerm | src/raft/raft.go:944-957 | a candidate that wins its ballot is the first leader of its term |
| RaftElection.UpToDateHolds | src/raft/raft.go:640-652 | a log that is at least as up to date as the voter's, stray entries or not, holds every entry the voter acknowledged that can still be chosen |
| RaftTally.WinnerMatched | src/raft/raft.go:944-957 | a candidate that wins has no stray entries |
| RaftFacts.StrayBelow | src/raft/raft.go:465-467 | an entry kept past a snapshot it does not continue has a term below every term that committed the snapshot |
| RaftFacts.StrayUncommitted | src/raft/raft.go:465-467 | nothing past the snapshot is committed while stray entries are there |
| RaftInstall.InstallLogOk | src/raft/raft.go:465-471 | after an install the log is matched throughout, or everything kept past the snapshot is stray |
| RaftInstall.InstallKeepsPrefix | src/raft/raft.go:465-471 | an install leaves whatever the peer had committed in place |
| RaftInstall.RecvInstallKeeps | src/raft/raft.go:406-474 | receiving a snapshot keeps the global invariant |
| RaftInstall.RecvInstallAckKeeps | src/raft/raft.go:476-501 | so does the reply to it |
| RaftLead.FastBackup | src/raft/raft.go:273-291 | skipping past the run of the conflict term stays inside the leader's log and lowers the next index |
| RaftLead.ScanHighest | src/raft/raft.go:865-884 | the commit index moves to the highest entry of the leader's own run of entries that a majority stores, only to such an entry, and never back |
| RaftFacts.SpliceOverwrites | src/raft/raft.go:207-229 | the splice at an offset is the rule conflict, truncate, append on the whole log, and it drops the stray entries it reaches |
| RaftCommitted.OneCommittedLog | src/raft/raft.go:856-888 | every run has one log of which every peer has at every moment committed a prefix |
| RaftCommitted.RunCommits | src/raft/raft.go:745-748 | every peer of a run gives its service entries of one committed log up to its commit index |
| RaftCompaction.AppendKeepsNumbering | src/raft/raft.go:207-229 | after a request of any well-formed peer entry k of the log still has the snapshot index plus k plus 1 |
| RaftCompaction.RequestsNumbered | src/raft/raft.go:835-847 | the entries a well-formed peer sends are numbered from the previous index on |
| RaftCompaction.OthersKeepNumbering | src/raft/raft.go:503-526 | Start, Snapshot and InstallSnapshot keep the same numbering |
| RaftCompaction.CompactionInvisible | src/raft/raft.go:188-229 | an accepted request acts on a compacted log as on the whole log exactly when it agrees with the entries behind the snapshot |
| RaftCompaction.InstallKeepsSuffix | src/raft/raft.go:465-467 | an installed snapshot keeps exactly the stored entries past its last index, whatever their terms |
| RaftCompaction.SnapshotsCover | src/raft/raft.go:436-563 | after a snapshot, own or a newer one installed, the snapshot index is its index, everything up to it counts as committed and applied, no index falls, and exactly the stored entries past it stay |
| RaftCompaction.InstallMatchesIff | src/raft/raft.go:465-471 | log matching survives an installed snapshot exactly when nothing is kept past it or the stored entry at its last index has its term |
| RaftCompaction.InstallBreaksMatching | src/raft/raft.go:465-467 | a follower whose log after an installed snapshot no longer matches |
| RaftCompaction.AppendLowersCommitIff | src/raft/raft.go:235-239 | an accepted request lowers the commit index exactly when it is of the current term and leader, and its last new entry is below a commit index that the leader exceeds |
| RaftCompaction.InstallThenHeartbeatLowersCommit | src/raft/raft.go:470-470 | a snapshot followed by a heartbeat after which the commit index is lower |
| RaftServer.Raft.constructor | src/raft/raft.go:1036-1065 | a new peer is a follower in term 0 with an empty log |
| RaftServer.Raft.AppendEntries | src/raft/raft.go:157-243 | the handler's new state and reply are those of the model, whose meaning `SuccessIff`, `HearsLeader`, `SpliceOverwrites`, `CommitsExactly` and `BackupExactly` give |
| RaftServer.Raft.FindConflict | src/raft/raft.go:194-203 | finds the first index of the run of the conflicting term |
| RaftServer.Raft.SpliceEntries | src/raft/raft.go:207-229 | the scanning loop computes the splice |
| RaftServer.Raft.HandleAppendReply | src/raft/raft.go:245-298 | the new state after an append reply, stepping down, advancing or backing up |
| RaftServer.Raft.BackupIndex | src/raft/raft.go:273-294 | the two scanning loops compute the backup index |
| RaftServer.Raft.ReplicateLog | src/raft/raft.go:822-847 | one round of the loop: entries for a lagging follower, the snapshot if they are behind it, or nothing |
| RaftServer.Raft.HandleInstallReply | src/raft/raft.go:476-501 | the new state after the reply to a snapshot |
| RaftServer.Raft.SendHeartBeat | src/raft/raft.go:911-931 | the heartbeat for every other peer |
| RaftServer.Raft.PrepareElection | src/raft/raft.go:971-992 | a candidate in a new term that votes for itself, and its request |
| RaftServer.Raft.RequestVote | src/raft/raft.go:622-660 | the handler's new state and reply are those of the model, whose meaning `VoteGrantedIff`, `OneWouldGrant` and `LeaderReachable` give |
| RaftServer.Raft.HandleVoteReply | src/raft/raft.go:944-965 | counting votes, winning once, or stepping down |
| RaftServer.Raft.BecomeLeader | src/raft/raft.go:786-811 | the leader's index arrays are reset |
| RaftServer.Raft.Start | src/raft/raft.go:710-737 | a leader appends the command with the next index and its term |
| RaftServer.Raft.UpdateCommitIndex | src/raft/raft.go:865-884 | the two nested scans compute the new commit index of the model, and nothing else changes |
| RaftServer.Raft.MakeRaftState | src/raft/raft.go:503-515 | the slicing gives the trimmed log with the index and term of its last dropped entry |
| RaftServer.Raft.Snapshot | src/raft/raft.go:547-563 | the log is trimmed to the snapshot and no index falls |
| RaftServer.Raft.InstallSnapshot | src/raft/raft.go:406-474 | the handler's new state, pending snapshot and reply are those of the model |
| RaftServer.Raft.TakeMessages | src/raft/raft.go:739-771 | the batch is the pending snapshot and the committed entries it does not cover |
| RaftLead.FinishCounts | src/raft/raft.go:775-779 | once a batch is handed over, the applied index is exactly how far the delivered commands and a snapshot that arrived meanwhile reach, and it did not fall |
| KvApply.AlwaysReplay | src/kvraft/server.go:259-287 | under every interleaving of batches, own snapshots and installed snapshots the service equals the replay of commands 1 to its committed index |
| KvApply.ApplierKeepsUp | src/raft/raft.go:739-784 | the applier never slices outside the log, the applied and committed indexes never fall, and an idle applier has handed over all it counts as applied |
| KvApply.AtMostOnce | src/kvraft/server.go:266-277 | a request that occurs again later in the log changes nothing the second time |
| KvApply.InstallKeeps | src/raft/raft.go:436-471 | an installed snapshot keeps the committed entries behind it and accounts for the applied index |
| KvApply.OutgoingFits | src/raft/raft.go:745-767 | every command of a batch is the service's next one when it arrives, with or without a pending snapshot in front |
| KvLaw.ReplayValue | src/kvraft/server.go:262-277 | after any number of commands every key holds the value of the last put on it that took effect, followed in order by the values of the later appends that took effect; a key without writes is absent |
| KvLaw.EffectIff | src/kvraft/server.go:262-277 | a command takes effect exactly when its request number is above every earlier one of its client in the log |
| KvLaw.CompletedIs | src/kvraft/server.go:262-277 | the duplicate table holds the highest request number of each client so far |
| KvReplicas.ServicesAgree | src/kvraft/server.go:259-287 | in a run of the whole cluster any two services, at any two times, that have the same index hold the same map and duplicate table |
| KvReplicas.ServiceIsReplay | src/kvraft/server.go:217-287 | every service of a cluster holds exactly the state after the commands delivered to it, by message or inside a snapshot |
| KvReplicas.SnapshotIsState | src/kvraft/server.go:238-257 | what a cluster stores when a service snapshots itself is that service's state |
| KvReplicas.ServiceValue | src/kvraft/server.go:259-287 | in every run of a cluster every service holds, for every key, what the writes among the commands delivered to it leave |
| KvServer.KVServer.ApplyMessage | src/kvraft/server.go:259-287 | one message from the applier does what the model says, including compacting the peer; `ReplayValue` says what that leaves under every key |
| KvServer.KVServer.ReadSnapshot | src/kvraft/server.go:217-236 | the service becomes the snapshot and the peer is compacted to its index |
| KvServer.KVServer.TakeSnapshot | src/kvraft/server.go:238-257 | the snapshot is the service's state and the peer is compacted to it |
| ShardSafety.OnePlace | src/shardkv/server.go:740-780 | in every reachable state a shard is served by exactly the group, or waits in exactly the dock, that holds its data, never both, and is nowhere exactly before it was first served |
| ShardSafety.NeverLost | src/shardkv/server.go:740-780 | a shard that is once served has a place ever after |
| ShardSafety.StoreRefines | src/shardkv/server.go:698-780 | the union of all shards is one map; an operation that takes effect acts on it and reads it as a plain map (what a plain map holds is `StoreValue`), every CONFIG and SHARDS operation leaves it unchanged |
| ShardLaw.StoreValue | src/shardkv/server.go:698-738 | at every time of every run the union of the shards holds, for every key, the value of the last put that took effect in the run, at whatever group, followed in order by the later appends; a key without writes is absent |
| ShardLaw.ServedValue | src/shardkv/server.go:698-738 | the group that serves a key's shard holds exactly that, and so a get that takes effect returns it, or the empty text if nothing was written |
| ShardLaw.NewTakesEffect | src/shardkv/server.go:659-738 | a request at the serving group takes effect if its client has sent no higher number and this one has not taken effect yet, however the shard and the duplicate tables have travelled |
| ShardLaw.AllTablesTrue | src/shardkv/server.go:81-90 | every duplicate table of every group, docked or travelling, knows only numbers that were sent and success only of requests that took effect |
| ShardProgress.MigrationCompletes | src/shardkv/server.go:214-331 | from every reachable world in which every owner runs, some run goes on, without new configs, until every group is in the newest config and holds exactly the shards it gives it |
| ShardProgress.Finish | src/shardkv/server.go:303-331 | a group in the oldest config anyone is in can pull, or begin with, every shard it lacks |
| ShardProgress.WaitsInDock | src/shardkv/server.go:244-267 | once every group has reached a config, a shard its owner lacks waits in the dock of its owner before, under that config's number |
| ShardSafety.AtMostOnce | src/shardkv/server.go:667-688 | no write of a client's request changes a shard twice over its whole chain of owning groups |
| ShardSafety.ConfigStepping | src/shardkv/server.go:214-238 | every group enters configs 1, 2, 3 and so on without a gap and never goes back |
| ShardSafety.NeverRefused | src/shardkv/server.go:659-696 | no reachable state blocks a proposal: the sizes the code relies on always hold |
| ShardSafety.StepKeeps | src/shardkv/server.go:659-696 | every step of every group and of the controller keeps the global invariant |
| ShardFollow.EnteredData | src/shardkv/server.go:757-780 | entering a config leaves every shard's data and duplicate table as they were, in the dock or in place |
| ShardFollow.FollowStep | src/shardkv/server.go:757-763 | a CONFIG operation is the next config or changes nothing, however stale its proposer was |
| ShardTake.TakenData | src/shardkv/server.go:740-755 | accepting shards leaves every shard's data as it was and no table refuses less |
| ShardTake.PullGenuine | src/shardkv/server.go:244-267 | a record a group accepts is the shard's authoritative data, however old the answer |
| ShardTake.BeginAllGenuine | src/shardkv/server.go:303-317 | empty shards are accepted only before a shard has ever been served |
| ShardTake.MergeDone | src/shardkv/server.go:81-90 | a merged table refuses whatever either table refused |
| ShardConfig.QueryNeverAbove | src/shardctrler/server.go:354-359 | a query never answers with a number above the one asked for, and an answer above the previous number is exactly the config asked for |
| ShardConfig.QueryAnswers | src/shardctrler/server.go:354-359 | the query gives exactly the config that is the newest one, or the one of the number asked for |
| ShardServer.ShardKV.constructor | src/shardkv/server.go:562-574 | a new server holds nothing |
| ShardServer.ShardKV.IsMigrateFinished | src/shardkv/server.go:202-212 | tells whether all owned shards are held and lists those that are not, in order |
| ShardServer.ShardKV.CompareConfig | src/shardkv/server.go:372-386 | the held shards that leave and those that stay |
| ShardServer.ShardKV.MakeOutShards | src/shardkv/server.go:357-370 | the dock of the config gets each leaving shard with exactly its keys |
| ShardServer.ShardKV.UpdateConfig | src/shardkv/server.go:757-780 | the new state is that of the model |
| ShardServer.ShardKV.MergeInfo | src/shardkv/server.go:81-90 | the table walked in any order becomes the merged table |
| ShardServer.ShardKV.AcceptShards | src/shardkv/server.go:740-755 | the new state is that of the model |
| ShardServer.ShardKV.DoOperation | src/shardkv/server.go:698-738 | the new state and the error; a get that succeeds returns what the key held, the empty text if nothing, which `ServedValue` ties to the writes of the run |
| ShardServer.ShardKV.Apply | src/shardkv/server.go:664-690 | one committed operation, filtered by the duplicate table |
| ShardServer.ShardKV.AnswerDock | src/shardkv/server.go:244-267 | the answer to a puller is the SHARDS operation of the model, or a refusal |
| Checker.CheckSingle | src/porcupine/checker.go:179-253 | true exactly when a linearization exists; every stored sequence is then one; otherwise every operation has its longest linearizable prefix |
| Checker.CacheContains | src/porcupine/checker.go:145-152 | true exactly when the set of done operations and the state were remembered |
| Checker.TryCall | src/porcupine/checker.go:194-213 | taking or stepping over a call keeps the loop invariant and either grows the memory or advances the cursor |
| Checker.Backtrack | src/porcupine/checker.go:235-241 | giving up the top of the stack keeps the loop invariant and shortens the path |
| Checker.StoreLongest | src/porcupine/checker.go:219-234 | each operation on the path gets the path where it is longer than what it had |
| SearchSpace.ExhaustedMeansNone | src/porcupine/checker.go:214-217 | once everything was given up there is no linearization: pruning by set and state lost none |
| CheckerState.ExhaustedMeansBest | src/porcupine/checker.go:218-234 | then no linearizable prefix through an operation is longer than the stored one, and none is stored only if none exists |
| Linearizability.CompletePath | src/porcupine/checker.go:244-252 | the linearizations are exactly the linearizable prefixes that hold every operation |
| EntryList.Lift | src/porcupine/checker.go:159-167 | the list loses exactly the call and its return, which keep naming their neighbours |
| EntryList.Unlift | src/porcupine/checker.go:169-177 | the list gains exactly the return and the call |
| EntryList.LiftThenUnlift | src/porcupine/checker.go:159-177 | cutting a pair out and putting it back restores every link |
| EntryList.InsertBefore | src/porcupine/checker.go:70-81 | the node stands before the mark and behind what stood there |
| EntryList.Length | src/porcupine/checker.go:83-90 | the number of nodes |
| EntryList.MakeLinkedEntries | src/porcupine/checker.go:121-138 | a list of the entries in order in which every call names its return |
| Bitset.NewBitset | src/porcupine/bitset.go:10-17 | an empty set with room for the bits asked for and no spare word |
| Bitset.Clone | src/porcupine/bitset.go:19-23 | a new array with the same words |
| Bitset.SetMember | src/porcupine/bitset.go:29-39 | setting a bit adds the position to the set and clearing removes it, nothing else |
| Bitset.Set | src/porcupine/bitset.go:29-33 | one word gets one bit |
| Bitset.Clear | src/porcupine/bitset.go:35-39 | one word loses one bit |
| Bitset.Get | src/porcupine/bitset.go:41-44 | membership |
| Bitset.Equals | src/porcupine/bitset.go:62-72 | equally long words are equal exactly when the sets are |
| Bitset.ComputePopcount | src/porcupine/bitset.go:46-52 | the size of the set |
| Bitset.ComputeHash | src/porcupine/bitset.go:54-60 | the population count mixed with every word |
| EntryOrder.EntriesProblem | src/porcupine/checker.go:39-60 | any list of the entries sorted by time, calls first at equal times, is a history in which an operation precedes another exactly when it returned before the other's call |
| EntryOrder.MakeEntries | src/porcupine/checker.go:48-60 | such a list of the operations' entries |
| Locality.LocalityTheorem | src/porcupine/model.go:28-32 | a history of the whole map is linearizable exactly when every key's sub-history is |
| Locality.Projects | src/models/kv.go:40-54 | a linearization of the map projects to every key |
| Locality.Merges | src/models/kv.go:40-54 | linearizations of all keys merge into one of the map |
| KvMeaning.LinearizableIsExplained | src/models/kv.go:40-54 | the history of the whole map is linearizable exactly when some order that respects real time has every get return the last put before it and the appends since |
| KvMeaning.MapReplays | src/models/kv.go:40-54 | the map model accepts an order exactly when every get in it is right |
| KvMeaning.KeyReplays | src/models/kv.go:40-54 | so does the model of one key, on operations of that key |
| CheckOperations.Partition | src/models/kv.go:18-34 | the sub-histories of all keys, one for each |
| CheckOperations.CheckParallel | src/porcupine/checker.go:274-353 | Ok and Illegal are right whatever the order in which verdicts arrive, Unknown only after a timeout, and the collected prefixes are linearizable and for every operation reach the longest |
| CheckOperations.CheckKvOperations | src/porcupine/checker.go:365-373 | Ok and Illegal decide whether the history of the whole map is linearizable, which is whether some order in real time explains every get by the last put and the appends since; without a timeout there is no third verdict |
| Allocator.RebalanceMoves | src/shardctrler/server.go:106-128 | a shard moves only from a group above the average to one below it, and as many move as the smaller of total surplus and total deficit |
| Allocator.RebalanceLevels | src/shardctrler/server.go:106-128 | every shard stays on a known group, every count moves toward the average, and in the end no group is below it or none is above it |
| Allocator.RebalanceFloor | src/shardctrler/server.go:77-130 | when every shard starts on a listed group every shard ends on one and every group has its floor |
| Allocator.RebalanceEvenIff | src/shardctrler/server.go:106-123 | counts differ by at most one afterwards exactly when the total deficit covers the excess of every group two or more above the average |
| Allocator.RebalanceCanBeUneven | src/shardctrler/test_test.go:51-53 | two groups of five, joined by two at once, do not end even |
| Allocator.RebalancedUnique | src/shardctrler/server.go:85-128 | rebalancing has one outcome, whatever the order of any map |
| Controller.AllocatorInvariant | src/shardctrler/server.go:146-202 | in every history of joins and leaves with positive gids and at most as many groups as shards, configs are numbered in order and each is wholly on nobody or gives every shard to a live group and every group its floor |
| Controller.ReplicasAgree | src/shardctrler/server.go:408-433 | replicas that apply the same log hold the same configs and duplicate table |
| Controller.RunExists | src/shardctrler/server.go:408-433 | every log of non-empty joins, leaves and queries has a history |
| Controller.JoinKeeps | src/shardctrler/server.go:146-158 | a join keeps every shard on a live group and every group at its floor |
| Controller.LeaveKeeps | src/shardctrler/server.go:160-202 | so does a leave, down to no groups at all |
| Controller.LeaveListedIff | src/shardctrler/server.go:172-198 | when a group stays, a leave keeps every shard on a live group exactly when a staying group held a shard |
| Controller.LeaveCanStrand | src/shardctrler/server.go:179-186 | a history: three groups join two shards, the two that hold them leave, and no shard is on a live group |
| Controller.DealtCount | src/shardctrler/server.go:58-75 | dealing gives each group its floor and the first ones one more |
| Membership.JoinGroups | src/shardctrler/server.go:146-158 | after a join every joining group lists its new servers behind those it had, and every other group is as it was |
| Membership.LeaveGroups | src/shardctrler/server.go:160-170 | after a leave exactly the groups that left are gone and the others list the same servers |
| Membership.OneConfigEach | src/shardctrler/server.go:408-433 | in every history a new join or leave adds exactly one config, and a repeated or outdated one, or a query, adds none |
| Membership.AlwaysNumbered | src/shardctrler/server.go:146-202 | in every history the configs are numbered from 0 on |
| CtrlServer.InitConfig | src/shardctrler/server.go:58-75 | the first groups in order of gid are dealt the shards in turn |
| CtrlServer.RebalanceConfig | src/shardctrler/server.go:77-130 | the one config that rebalancing allows, for every order of every map |
| CtrlServer.SpreadShards | src/shardctrler/server.go:106-123 | the two-pointer loop on the map computes the levelling |
| CtrlServer.RankGids | src/shardctrler/server.go:89-105 | the groups by number of shards and gid |
| CtrlServer.PickTemporary | src/shardctrler/server.go:179-186 | the staying group with the most shards, the smallest gid among equals, or nobody |
| CtrlServer.ShardCtrler.constructor | src/shardctrler/server.go:391-401 | one config with no groups and all shards on nobody |
| CtrlServer.ShardCtrler.DoJoin | src/shardctrler/server.go:146-158 | appends the one config a join allows |
| CtrlServer.ShardCtrler.DoLeave | src/shardctrler/server.go:160-202 | appends the one config a leave allows |
| CtrlServer.ShardCtrler.Apply | src/shardctrler/server.go:408-433 | applies a command once, by request number |
| CtrlServer.ShardCtrler.Answer | src/shardctrler/server.go:354-359 | for numbered configs the answer is one of them: the one with the largest number when the query is -1 or past the end, otherwise the one of that number |

## Left out

- Restart of a Raft peer (persist, readPersist): the early returns of AppendEntries skip persisting and the leader term is not restored, so the global claims are for runs without restart.
- RaftSafety.LogsMatch: entries a peer keeps past an installed snapshot are excepted, because the handler keeps them without comparing terms (`InstallMatchesIff` has the exact condition); no other result of `RaftSafety` excludes InstallSnapshot, except that `CommitNeverFalls` is about peers that never installed one.
- RaftWorld sends heartbeats one destination at a time; the code builds all of them in one lock-held region, which is one of the orders modelled.
- Timers, election timeouts, condition variables and fairness: `CommandArrives`, `LeaderReachable` and `MigrationCompletes` say that a run can always go on to the good state, not that every schedule does.
- Aliasing between the log and entries in flight, and between a cached bit set and its array: both are values here, as the code never changes them afterwards.
- labrpc, labgob and the encoding of snapshots.
- Garbage collection of docks in the sharded service (Hello, sayHello, clean): it is local and considers only groups that have answered; docks are kept.
- The sharded service when a later config again has shard 0 on nobody: the code then restarts from empty shards; `ShardWorld` publishes only configs whose shard 0 is owned, besides config 0.
- RaftElectable.GrantsExtending: says when a longer log gets the vote rather than that it always does, because a log kept past an installed snapshot may end in an earlier term.
- ShardProgress.MigrationCompletes: asks that every config past the first gives every shard to a group that runs; a shard given to a group that does not exist goes nowhere.
- Waiting loops of the RPC handlers and the retry loops of the clerks.
- CtrlServer.ShardCtrler.DoJoin: a join of no groups while nobody owns the shards is excluded, because the code then takes a remainder by zero.
- CheckOperations.CheckKvOperations: an empty history is excluded, because without a part the program waits forever for a verdict.
- doMove of the controller, which may put a shard on a group that is not listed.
- ShardSafety.AtMostOnce: speaks of request numbers from 1 on, which is where the clerks start; number 0 is the table's default.
- CheckOperations.Partition: the keys come in any order rather than sorted, because nothing depends on the order.
- CheckOperations.CheckParallel: a timeout is the number of verdicts read before it fires; nothing is promised of the partial linearizations after one; at least one part is required because the program otherwise waits forever.
- Checker.CheckSingle: the kill flag is not modelled; the history is one in which every operation is called and returns once, in that order.
- checkEvents with renumber and convertEntries, and the visualization.
- MapReduce, the test harnesses and logging.
