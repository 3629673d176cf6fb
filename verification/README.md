# Proofs about the Raft, MapReduce, sharding and key/value servers

This project models four parts of the repository in Dafny and proves what they are for.

- **Raft** (`src/raft1/raft.go`): elections, replication with back-off, persistence, snapshots.
- **Shard configurations** (`src/shardkv1/shardcfg/shardcfg.go`): the greedy allocator and join/leave.
- **Key/value server and retrying clerk** (`src/kvsrv1`, `src/models1/kv.go`, `src/kvtest1/kvtest.go`).
- **MapReduce** (`src/mr`, `src/main/mrsequential.go`): coordinator, workers, and the sequential program.

`dafny verify dfyconfig.toml` checks everything. The `Raft*` files are read in the order `RaftNode`, `RaftSystem`,
`RaftHistory`, `RaftEvents`, `RaftInvariant`, `RaftElection`, `RaftReplication`, `RaftLeadership`, `RaftSnapshot`,
`RaftSafety`, `RaftTheorems`, `RaftService`, `RaftHeartbeat`, `RaftTwoLocks`; the others build on these. `RaftRules`
says region by region what a server has to achieve. `RaftDummyRun`, `RaftFallRun`, `RaftSkippedRun`, `RaftConflictRun`,
`RaftSlowRun` and `MrTornRun` are runs in which something surprising happens.

## How the models are built

Every object of the source whose methods update its fields is a class here (`Raft` with its `Persister`, `ShardConfig`,
`KVServer`, `Clerk`, `Coordinator`), with the source's loops. Each method is proved to turn the old value of the object
into the value that a function says (`RaftNode`, `ShardBalance`, `KvServer`, `MrTasks`, ...). What each operation has to
achieve is then stated independently of that function and proved of it (`RaftRules`, the lemmas of `KvServer`,
`KvClerk`, `MrTasks`, `ShardBalance`), and, where several objects are involved, what the source promises is proved about
all runs of a step system made of them.

**Raft.** `RaftNode` has one function for each lock-protected region of `raft.go`, on the compacted log with its dummy
entry. `RaftSystem` is a cluster of such servers. A vote request is executed and answered at most once; all other calls
may be lost, delayed, reordered, and even executed or answered repeatedly. Servers crash at any moment, also between two
saves of one handler, and restart from what they saved. Services take snapshots and leaders install them. There a
message is built in one step. `RaftHeartbeat` is the same cluster with the two locks of the heartbeat as two steps. As
long as every message is guarded its runs are mapped to those of `RaftSystem`; as long as every message is harmless,
which is less, the invariant is kept and all theorems are proved again in `RaftTwoLocks`. The proof keeps a history
beside the run: for every term its leader, its log when elected and its log now, and who elected it; every vote with the
voter's log at that moment; how much of each leader's log each server has accepted. `LeaderCompleteness` is proved about
such histories alone, by induction on the term. Every server has a shadow: the uncompacted log its entries come from,
and the committed prefix its snapshot stands for. The two may differ below the snapshot, because an installed snapshot
may be laid over a conflicting log; all theorems hold in runs where that happens.

**Shard configurations.** Any number of shards below the sentinel 257 and any number of groups. Minimal movement is
proved by exchange: whatever balanced assignment is the target, the allocator's next move is also the first move towards
some balanced assignment that is no further away.

**Key/value store.** An attempt of a clerk is dropped before it is executed, executed with the reply lost, or executed
with the reply delivered. Any number of clerks interleave; `KvLoops` shows that whatever a clerk's loop comes to is in
such a run. The order in which the server settled the calls is the linearization.

**MapReduce.** Any number of workers ask, work, crash and report in any order; answers and reports get lost; tasks time
out and are executed again while the old execution goes on writing. A worker knows of the job only what its task says.
Reading one file is one step, and so is writing one; in `MrTruncate` a file is first created, which empties it in place,
and then written bit by bit, and its runs are mapped to those of `MrRuns` as long as no reduce task reads a file that is
not written to the end. The map function may return its pairs in any order, and the sort may order pairs with equal keys
in any way. The reduce function is assumed not to look at the order of the values. Without reduce tasks a worker fails
on the first pair.

## What was found on the way

- `sendHeartbeats` reads the commit index, the snapshot and its index under one lock and the log under a later one. If
  the server has taken a snapshot in between and a refusal has sent `nextIndex` back to 1, the message carries the dummy
  entry of the compacted log, or no entries but a commit index. `RaftDummyRun.DummyIsShipped` is a run of three servers in
  which a follower accepts the dummy as a real entry, commits and applies it: two logs differ at an index and term, and two
  services are given different commands at index 1. `RaftFallRun.CommitFalls` is a run in which a follower's `commitIndex`
  falls below its `lastApplied`. Each needs one harmful message. `RaftHeartbeat.HarmlessExactlyWhen` says exactly which
  messages are harmful, and without one no theorem of `RaftTwoLocks` fails; `RaftEdges.CommitDropsExactlyWhen` says
  exactly when the handler lowers `commitIndex`.
- `InstallSnapshot` hands the service a snapshot that is older than what the service has applied, whenever it is newer than
  the last snapshot. `RaftSkippedRun.CommandIsSkipped` is a run of three servers in which a service then misses a command
  for good. The theorem on services therefore speaks of runs in which arriving snapshots are not older than that; the
  first one that is older puts its service out of step (`RaftService.BehindMeansOut`, `RaftEdges.InStepExactlyWhen`).
- A map task that timed out goes on, and `os.Create` empties files that another execution has completed.
  `MrTornRun.LineIsLost` is a run in which a reduce task reads such a file and a line of the output is lost.
  A read gets what it is due exactly if it is not of such a file (`MrTruncate.GetsItsDue`), and nothing is lost if no such
  file is read, exactly up to output files that are themselves not written to the end (`MrTruncate.GuardedIsSequential`).
- `InstallSnapshot` keeps the suffix of a log that conflicts with the snapshot: `RaftConflictRun.ConflictIsKept` is a run
  of three servers in which it does, `RaftCompaction.InstallIsAppend` says exactly when. Nothing unsafe follows.
- The back-off is not fast in the run of entries that reaches down to the follower's snapshot. The scan for the start of
  that run finds none, and the leader goes back one index at a time (`RaftBackoff.GoesBackOneByOne`,
  `RaftCompaction.HintSame`). The bound of `RaftBackoff.BackoffIsFast` counts these entries; `RaftSlowRun.GoesBackSlowly`
  is, for every n, a run in which n entries of one term cost n refusals.
- A cluster of one server never elects a leader (`RaftEdges.AloneNeverLeads`).
- `KvModel.Step` does not know the answer `ErrNoKey` of a put, so a history is linearizable exactly when no put got it
  (`KvLinear.Linearizable`).

## Model

| member | source | states |
|---|---|---|
| RaftServer.Raft.constructor | src/raft1/raft.go:654-687 | a new server starts from what its persister holds, or from the initial state if nothing was ever saved |
| RaftServer.Raft.ReadPersist | src/raft1/raft.go:83-108 | exactly the saved term, vote, log and snapshot position come back; commitIndex and lastApplied restart at the snapshot |
| RaftServer.Raft.PersistWithSnapshot | src/raft1/raft.go:71-81 | afterwards the persister holds exactly the present term, vote, log and snapshot position, with the given snapshot |
| RaftServer.Raft.StartElection | src/raft1/raft.go:430-448 | the server stands in the next term, votes for itself and has saved that; the request carries its last index and term |
| RaftServer.Raft.RequestVote | src/raft1/raft.go:248-279 | the new server state and the reply are those of the voting rule |
| RaftServer.Raft.VoteAnswered | src/raft1/raft.go:461-482 | an answer is counted only by the candidacy that asked; a majority makes the server leader once |
| RaftServer.Raft.Start | src/raft1/raft.go:386-400 | only a leader appends; the index returned is where the command was put |
| RaftServer.Raft.ReadForHeartbeat | src/raft1/raft.go:488-497 | what a heartbeat takes along from its first lock, only if the server leads |
| RaftServer.Raft.BuildMessage | src/raft1/raft.go:509-565 | the message a heartbeat builds for a peer under a later lock, from the state then and what was read before; none if the server no longer leads in that term |
| RaftServer.Raft.AppendEntries | src/raft1/raft.go:303-379 | the new server state and the reply are those of the consistency check, the merge and the commit rule |
| RaftServer.Raft.AppendFrom | src/raft1/raft.go:355-365 | the loop over the entries computes the merge that cuts only at a conflict |
| RaftServer.Raft.FirstOfTerm | src/raft1/raft.go:340-348 | the backward scan finds the back-off hint |
| RaftServer.Raft.AppendAnswered | src/raft1/raft.go:571-599 | an answer moves nextIndex and matchIndex of its peer only in the term it was asked in |
| RaftServer.Raft.UpdateCommitIndex | src/raft1/raft.go:625-652 | the scan sets commitIndex to the highest index of the present term that a majority is known to hold |
| RaftServer.Raft.ApplyCommitted | src/raft1/raft.go:604-623 | the messages are those of the indices above lastApplied up to commitIndex |
| RaftServer.Raft.Snapshot | src/raft1/raft.go:116-158 | the compacted state, the raised indices of the peers, and both saved together |
| RaftServer.Raft.InstallSnapshot | src/raft1/raft.go:172-229 | the new server state, the reply and what is handed to the service |
| RaftServer.Raft.InstallAnswered | src/raft1/raft.go:527-541 | the peer is taken to hold the snapshot, only in the term it was sent in |
| RaftRules.VotesExactlyWhen | src/raft1/raft.go:248-279 | a vote is granted exactly if the term is not old, the voter is free for this candidate in that term, and the pair of last term and last index is at least the voter's; term, vote, role and what is saved afterwards in all cases |
| RaftRules.StandsForNextTerm | src/raft1/raft.go:430-448 | next term, own vote, fresh counters, all saved; the request is the least that a voter with the same log accepts |
| RaftRules.AnswerCounts | src/raft1/raft.go:461-482 | an answer counts only for the candidacy that asked, a higher term ends it, and the vote that completes the majority, and only that one, makes the leader, with nextIndex after the log and matchIndex at the snapshot |
| RaftRules.MajorityElects | src/raft1/raft.go:430-486 | through any sequence of answers without a higher term a candidacy ends in leadership exactly if the granted votes and its own are a majority |
| RaftRules.AppendsOnlyAsLeader | src/raft1/raft.go:386-400 | a leader puts the command right after its log in its own term and saves it; nobody else does anything |
| RaftRules.ReadingSays | src/raft1/raft.go:494-497 | the first lock of a heartbeat reads the present term, commit index and snapshot |
| RaftRules.MessageSays | src/raft1/raft.go:514-565 | a snapshot exactly if nextIndex is not above the one read; otherwise every entry from nextIndex to the end of the log, the term before them, and the commit index read |
| RaftRules.MergeSplices | src/raft1/raft.go:355-365 | for any log and entries: left alone if it holds them all, otherwise cut where the first one is missing and continued with that and all after it |
| RaftRules.TakesExactlyWhen | src/raft1/raft.go:303-379 | entries are taken exactly if the term is not old and the message fits the log; log, commitIndex, term, vote, role and what is saved in all cases |
| RaftRules.RefusalSays | src/raft1/raft.go:326-350 | a refusal says how far the log goes, also for a message that starts below the snapshot; over a conflict it names the term and where its run begins |
| RaftRules.AnswerTeaches | src/raft1/raft.go:571-599 | what one answer does to nextIndex and matchIndex of its peer, to no other peer, and when it ends the leadership |
| RaftRules.CommitsHighest | src/raft1/raft.go:625-652 | commitIndex goes to the highest index of the leader's term that it and the peers known to hold it are a majority for; it stays if there is none above it, and without leadership |
| RaftRules.SnapshotCuts | src/raft1/raft.go:116-158 | exactly which snapshots are taken; what is dropped, kept, raised and saved |
| RaftRules.InstallsExactlyWhen | src/raft1/raft.go:172-229 | exactly which arriving snapshots are installed; what the server then holds, saves and hands to its service, and what it does otherwise |
| RaftRules.RestartKeeps | src/raft1/raft.go:59-108 | a restart brings back term, vote, log and snapshot, and takes what is in the snapshot to be committed and applied |
| RaftHistory.MajoritiesMeet | src/raft1/raft.go:470-470 | any two sets of more than half of the servers share one |
| RaftHistory.LeaderCompleteness | src/raft1/raft.go:266-278 | an entry that a majority accepted from the leader of its own term is in the starting log of the leader of every later term |
| RaftHistory.SettledAgree | src/raft1/raft.go:633-651 | any two committed prefixes agree as far as both go |
| RaftElection.GrantMeans | src/raft1/raft.go:258-278 | in a run a vote is granted exactly if the term is not old, nobody else has the vote, and the candidate's whole log is at least as up to date as the voter's whole, uncompacted log |
| RaftElection.TermIsFree | src/raft1/raft.go:466-479 | a candidate with a majority of votes stands in a term that has no leader yet |
| RaftElection.BootOk | src/raft1/raft.go:83-108 | whatever a server has saved is enough to keep all its promises after a restart |
| RaftReplication.MergeMeaning | src/raft1/raft.go:355-365 | the follower's log is left alone if it already holds the entries, and otherwise ends with them |
| RaftReplication.MergeCompacted | src/raft1/raft.go:355-365 | the loop does the same on the compacted log as on the whole one |
| RaftReplication.AbsorbedMeaning | src/raft1/raft.go:340-365 | after an accepted message the log agrees with the leader's up to the last entry sent, and was changed only if it did not before |
| RaftReplication.CommittedIsKept | src/raft1/raft.go:358-363 | nothing committed is cut by a leader's message |
| RaftReplication.AppendNodeOk | src/raft1/raft.go:303-379 | the handler keeps the invariant of a server for every message a leader can have sent |
| RaftLeadership.SentAppendOk | src/raft1/raft.go:545-565 | an AppendEntries message is a true slice of its leader's log and claims only what is committed |
| RaftLeadership.CountedIsSettled | src/raft1/raft.go:638-650 | an index a leader counts a majority for is committed, although matchIndex may have been raised to a snapshot without an acknowledgement |
| RaftLeadership.DeliveriesAre | src/raft1/raft.go:607-618 | consecutive indices, in order, none skipped |
| RaftSnapshot.SnapshotTaken | src/raft1/raft.go:116-158 | taking a snapshot of applied indices keeps the invariant of a server |
| RaftSnapshot.SnapshotInstalled | src/raft1/raft.go:172-229 | installing a snapshot keeps the invariant of a server, even over a conflicting log |
| RaftTheorems.StepOk | src/raft1/raft.go:116-652 | every step of the cluster keeps the invariant of all servers, messages and services' inputs, and the history only grows |
| RaftTheorems.ElectionSafety | src/raft1/raft.go:430-486 | no term has two leaders, in any run, over all restarts |
| RaftTheorems.LogMatching | src/raft1/raft.go:340-365 | two logs, at any two times, with the same term at an index above both snapshots are the same up to there |
| RaftTheorems.LeadersAreComplete | src/raft1/raft.go:625-651 | what any server knows to be committed is at the same index in the log of the leader of every later term; at the end of either's snapshot, with the same term |
| RaftTheorems.CommittedAgree | src/raft1/raft.go:371-378 | any two servers, or boots of one, agree on every index both know to be committed, and a snapshot ends at the committed term |
| RaftTheorems.StateMachineSafety | src/raft1/raft.go:604-623 | no two services, and no two boots of one, are ever given different commands at one index |
| RaftTheorems.Discipline | src/raft1/raft.go:59-108 | in every state snapshotIndex <= lastApplied <= commitIndex <= last index, and what is in memory is on disk |
| RaftTheorems.AppliesInOrder | src/raft1/raft.go:604-623 | in every state the next delivery is exactly the entries from lastApplied + 1 to commitIndex |
| RaftTheorems.CommitNeverDrops | src/raft1/raft.go:371-378 | within a boot neither commitIndex nor lastApplied ever falls |
| RaftTheorems.CommittedIsNotCut | src/raft1/raft.go:355-378 | within a boot no entry known to be committed is cut or replaced |
| RaftService.ServicesAgree | src/raft1/raft.go:221-228 | if no arriving snapshot is older than what its service has applied, all services always hold prefixes of one sequence of commands, also after snapshots and restarts |
| RaftService.LeadersCarryAll | src/raft1/raft.go:116-158 | under the same condition the leaders of later terms have every command that any server knows to be committed, in the log or in the snapshot, wherever the two servers' snapshots end |
| RaftService.BehindMeansOut | src/raft1/raft.go:192-228 | the condition is needed: the first arriving snapshot that is older leaves its service with fewer commands than lastApplied |
| RaftCompaction.CompactionIsInvisible | src/raft1/raft.go:116-158 | through any sequence of events, a server that takes snapshots and one that keeps its whole log give the same votes, replies, deliveries and indices, for messages that start at or above the snapshot |
| RaftCompaction.MessageSame | src/raft1/raft.go:545-565 | a leader sends a peer that needs nothing of the snapshot the same message with and without it |
| RaftCompaction.HintSame | src/raft1/raft.go:340-348 | the back-off hint is the same too, unless the run of the conflicting term reaches down to the snapshot; then it is prevLogIndex, which differs exactly if in the whole log the run begins earlier |
| RaftCompaction.SnapshotsCompose | src/raft1/raft.go:116-158 | an earlier snapshot leaves no trace in a later one |
| RaftCompaction.RestartSame | src/raft1/raft.go:102-107 | after a restart a compacted server is where the whole one is once it has applied the snapshot's part again |
| RaftCompaction.InstallIsAppend | src/raft1/raft.go:192-219 | installing equals appending the leader's whole prefix and then taking the snapshot, exactly if the server's log ends there or has the snapshot's term there |
| RaftConflictRun.ConflictIsKept | src/raft1/raft.go:211-216 | a run of three servers in which a server keeps an entry of term 1 above a snapshot that ends in term 2 |
| RaftBackoff.SnapshotReaches | src/raft1/raft.go:514-541 | after a snapshot and its answer the peer's next message starts right after it, unless a newer one was taken, and is accepted if the peer had installed it; the other peers' indices stay; a higher term ends the leadership |
| RaftBackoff.CostFalls | src/raft1/raft.go:340-349 | a refusal over a conflict moves the leader below a whole run of one term, or one index down if that run reaches down to the snapshot |
| RaftBackoff.BackoffIsFast | src/raft1/raft.go:514-599 | with or without snapshots on either side: at most two messages more than there are different terms in the follower's log and entries in the run of its snapshot's term pass before entries are taken, one more than different terms without snapshots; then the follower holds the leader's whole log and the leader knows it |
| RaftBackoff.GoesBackOneByOne | src/raft1/raft.go:340-349 | if the entries above the follower's snapshot have its term and conflict, the follower refuses once for each of them |
| RaftBackoff.BackoffInRun | src/raft1/raft.go:333-365 | the bound applies to every leader and follower that a run can lead to; if the follower's term is higher, its first answer makes the leader step down instead |
| RaftSlowRun.GoesBackSlowly | src/raft1/raft.go:340-349 | for every n a run of three servers that leads to a leader and a follower with a single term in its log, which refuses n times |
| RaftHeartbeat.FaithfulExactlyWhen | src/raft1/raft.go:494-566 | a message built from an earlier reading of the snapshot tells the truth exactly if it is guarded: the peer needs nothing of the present snapshot, or that one was read and is not empty |
| RaftHeartbeat.FaithfulAfterSnapshot | src/raft1/raft.go:146-155 | right after a leader took a snapshot everything it sends is true |
| RaftHeartbeat.GuardedIsRun | src/raft1/raft.go:488-566 | a run with the two locks of the heartbeat apart, in which every message is guarded, goes through the states of a run in which each message is built in one step |
| RaftHeartbeat.HarmlessExactlyWhen | src/raft1/raft.go:494-566 | which messages built from an earlier reading the followers' invariant allows: exactly those where an older snapshot ends in the present snapshot's term, or nextIndex is above the snapshot or at least 2, or nothing is sent and nothing claimed; the dummy is allowed too if the command at index 1 was one |
| RaftHeartbeat.GuardedIsHarmless | src/raft1/raft.go:494-566 | a guarded message is harmless, in every run with the two locks apart |
| RaftHeartbeat.ActionOk | src/raft1/raft.go:488-566 | reading, building a harmless message and every other step keep the invariant of all servers, messages and readings |
| RaftTwoLocks.ElectionSafety | src/raft1/raft.go:430-486 | with the two locks apart and every message harmless: no term has two leaders |
| RaftTwoLocks.LogMatching | src/raft1/raft.go:340-365 | the same: the same term at an index means the same log up to there |
| RaftTwoLocks.LeadersAreComplete | src/raft1/raft.go:625-651 | the same: what any server knows to be committed is in the log of the leader of every later term |
| RaftTwoLocks.CommittedAgree | src/raft1/raft.go:371-378 | the same: any two servers agree on every index both know to be committed |
| RaftTwoLocks.StateMachineSafety | src/raft1/raft.go:488-623 | the same: no two services, and no two boots of one, are ever given different commands at one index |
| RaftTwoLocks.Discipline | src/raft1/raft.go:59-108 | the same: snapshotIndex <= lastApplied <= commitIndex <= last index, memory is on disk, and the next delivery is exactly the gap |
| RaftTwoLocks.CommitNeverDrops | src/raft1/raft.go:371-378 | the same: within a boot neither commitIndex nor lastApplied ever falls |
| RaftTwoLocks.CommittedIsNotCut | src/raft1/raft.go:355-378 | the same: within a boot no entry known to be committed is cut or replaced |
| RaftTwoLocks.ServicesAgree | src/raft1/raft.go:221-228 | the same, for services that save what they have applied and get no snapshot older than that: all hold prefixes of one sequence of commands |
| RaftTwoLocks.LeadersCarryAll | src/raft1/raft.go:116-158 | the same, for such services: leaders of later terms have every command known to be committed, in the log or in the snapshot |
| RaftDummyRun.DummyIsShipped | src/raft1/raft.go:494-556 | a run of three servers with one harmful message: a follower takes the dummy for the entry at index 1, two logs differ there in the same term, and two services are given different commands |
| RaftFallRun.CommitFalls | src/raft1/raft.go:371-378 | a run of three servers with one harmful message: a server that has applied index 1 sets commitIndex to 0 |
| RaftEdges.InStepExactlyWhen | src/raft1/raft.go:192-228 | a service stays in step with lastApplied exactly if the snapshot is ignored or not older than lastApplied |
| RaftSkippedRun.CommandIsSkipped | src/raft1/raft.go:192-228 | a run of three servers with one arriving snapshot that is behind its service: the service is thrown back and misses a command |
| RaftEdges.CommitDropsExactlyWhen | src/raft1/raft.go:371-378 | when the handler taken by itself lowers commitIndex |
| RaftEdges.AloneNeverLeads | src/raft1/raft.go:453-486 | a cluster of one server never has a leader |
| ShardConfig.ShardConfig.constructor | src/shardkv1/shardcfg/shardcfg.go:44-49 | all shards unassigned, no group, number 0 |
| ShardConfig.ShardConfig.Analyze | src/shardkv1/shardcfg/shardcfg.go:80-111 | the most and the least loaded group, ties to the smaller id, and their loads; the sentinels if there is no group |
| ShardConfig.ShardConfig.Rebalance | src/shardkv1/shardcfg/shardcfg.go:122-154 | terminates; the result, and the sequence of shards it writes, are functions of the assignment and the set of groups, whatever the order in which maps are walked |
| ShardConfig.ShardConfig.Join | src/shardkv1/shardcfg/shardcfg.go:156-183 | succeeds exactly if there are new groups, none is known already and no server is in two groups; the number rises by one |
| ShardConfig.ShardConfig.Leave | src/shardkv1/shardcfg/shardcfg.go:185-205 | succeeds exactly if groups are named, all are known and none twice; exactly those are gone |
| ShardConfig.ShardConfig.JoinBalance | src/shardkv1/shardcfg/shardcfg.go:207-213 | the rebalanced configuration on success; the assignment and the number unchanged otherwise |
| ShardConfig.ShardConfig.LeaveBalance | src/shardkv1/shardcfg/shardcfg.go:215-221 | the rebalanced configuration on success; the assignment and the number unchanged otherwise |
| ShardConfig.ShardConfig.CheckConfig | src/shardkv1/shardcfg/shardcfg.go:238-279 | passes exactly if the groups are the expected ones, every shard is in one, and no two are more than one shard apart |
| ShardBalance.Shifted | src/shardkv1/shardcfg/shardcfg.go:146-152 | the sum of the squared group counts falls with every move |
| ShardBalance.RebalancedIsBalanced | src/shardkv1/shardcfg/shardcfg.go:122-154 | every shard ends in a group and all groups are within one shard of each other |
| ShardBalance.BalancedStays | src/shardkv1/shardcfg/shardcfg.go:122-154 | a balanced assignment is left alone |
| ShardBalance.ShiftHelps | src/shardkv1/shardcfg/shardcfg.go:141-153 | after one move from the most to the least loaded group some balanced target is one move closer than the given one was |
| ShardBalance.MovesLeast | src/shardkv1/shardcfg/shardcfg.go:122-154 | no fully assigned, balanced target needs fewer reassignments from the same start, unassigned shards included |
| ShardBalance.NoneTwice | src/shardkv1/shardcfg/shardcfg.go:131-153 | in the sequence of shards that are written every reassignment is of a different shard, and exactly the reassigned shards end elsewhere |
| ShardBalance.UnassignedFirst | src/shardkv1/shardcfg/shardcfg.go:131-138 | the unassigned shards are given out first, in the order of their numbers |
| ShardBalance.JoinMovesToJoiners | src/shardkv1/shardcfg/shardcfg.go:207-213 | groups that join a balanced assignment only receive |
| ShardBalance.LeaveMovesLeavers | src/shardkv1/shardcfg/shardcfg.go:215-221 | when groups leave a balanced assignment only their shards move |
| ShardConfig.RunPasses | src/shardkv1/shardcfg/shardcfg.go:238-279 | every configuration that successful joins and leaves lead to passes the checker |
| ShardConfig.JoinIsLocalInRun | src/shardkv1/shardcfg/shardcfg.go:207-213 | in every run a join moves shards to joining groups only |
| ShardConfig.LeaveIsLocalInRun | src/shardkv1/shardcfg/shardcfg.go:215-221 | in every run a leave moves shards of leaving groups only |
| KvServer.KVServer.Get | src/kvsrv1/server.go:39-52 | the value and version of the key, or ErrNoKey |
| KvServer.KVServer.Put | src/kvsrv1/server.go:54-81 | the entry is replaced in place, and no other, under the conditional rule |
| KvServer.PutMeaning | src/kvsrv1/server.go:54-81 | a put succeeds exactly if it names the present version, which then rises by one; nothing else changes |
| KvServer.GetMeaning | src/kvsrv1/server.go:39-52 | a get tells exactly whether the key is there and its version, 0 if it is not; a put that names this version succeeds if nothing came in between, and the next get returns what it stored |
| KvClerk.Clerk.Put | src/kvsrv1/client.go:31-55 | the retry loop with its `first` flag, against any pattern of lost requests and replies and other clerks' puts |
| KvClerk.Clerk.Get | src/kvsrv1/client.go:19-29 | the retry loop, against any pattern of lost requests and replies and other clerks' puts |
| KvClerk.GetAnswers | src/kvsrv1/client.go:19-29 | it answers exactly if some reply comes back, with what the first such attempt finds of the key; the data is what the others' puts make of it |
| KvClerk.PutAnswers | src/kvsrv1/client.go:31-55 | it answers exactly if some reply comes back, with what the server says to the first such attempt, except that ErrVersion becomes ErrMaybe if an attempt went before; the data is what the puts that reached the server make of it |
| KvClerk.AtMostOnce | src/kvsrv1/client.go:31-55 | at most one request of a Put is executed successfully; exactly one if the answer is OK, none if it is ErrVersion or ErrNoKey |
| KvClerk.MaybeMeansMaybe | src/kvsrv1/client.go:44-50 | ErrMaybe comes back both when the put was executed and when it was not |
| KvModel.PutIsStep | src/models1/kv.go:57-63 | the server's put is a step of the sequential model exactly if the answer is not ErrNoKey |
| KvModel.GetIsStep | src/models1/kv.go:54-56 | the server's get is a step of the sequential model |
| KvLinear.Linearizable | src/models1/kv.go:44-66 | a history of calls is linearizable exactly if no put was answered ErrNoKey; the order of the deciding executions is a linearization, each within its call |
| KvLinear.OnePutPerVersion | src/kvsrv1/server.go:73-80 | at most one put ever succeeds for a key and a version |
| KvLinear.AnswersAreHonest | src/kvsrv1/client.go:41-53 | OK means executed successfully by exactly one request, ErrVersion and ErrNoKey mean never, in every run |
| KvLinear.VersionsAreCounted | src/kvtest1/kvtest.go:137-151 | once all puts to a key have returned, Nok <= version <= Nok + Nmaybe |
| KvLinear.ReliableCount | src/kvtest1/kvtest.go:144-147 | over a network that loses nothing the version is exactly Nok |
| KvLoops.PutIsInRun | src/kvsrv1/client.go:31-55 | whatever a Put comes to, with any losses and puts of others, a run goes on with this call to the same answer and data |
| KvLoops.GetIsInRun | src/kvsrv1/client.go:19-29 | the same for Get |
| KvAppend.CheckAppends | src/kvtest1/kvtest.go:372-401 | passes exactly if the list is as long as the puts, every client is known and in order, and rounds and gaps stay within its tallies |
| KvAppend.RisingMeans | src/kvtest1/kvtest.go:379-389 | the check of one client's entries means strictly rising rounds, so none twice |
| KvAppendRuns.ListIsInOrder | src/kvtest1/kvtest.go:338-363 | at any moment the list has length version - 1, no client and round occurs twice, rounds rise, and no client's read fails |
| KvAppendRuns.CheckPasses | src/kvtest1/kvtest.go:372-401 | whatever the network loses, the check never fails once all clients are done |
| MrWorker.PartitionPairs | src/mr/worker.go:71-75 | partition r holds exactly the pairs whose key hashes to r, in order |
| MrWorker.DoMap | src/mr/worker.go:57-92 | the files of the task hold its partitions; no other file changes |
| MrWorker.DoReduce | src/mr/worker.go:94-137 | the output of the task comes from some sorted arrangement of the pairs in its files; a missing file counts as empty |
| MrWorker.ReduceRuns | src/mr/worker.go:122-135 | the walk with its two indices reduces each maximal run of equal keys once |
| MrWorker.Sequential | src/main/mrsequential.go:38-86 | the output comes from some sorted arrangement of all pairs of all inputs |
| MrWorker.ProducedReports | src/mr/worker.go:114-135 | then there is one line for every key, in order of keys, with all its values reduced |
| MrData.ReportsUnique | src/main/mrsequential.go:59-84 | the pairs determine the whole output |
| MrData.LessMeans | src/mr/worker.go:147-147 | keys are ordered by their first difference, and a beginning of a key comes before it |
| MrData.PartsMakeWhole | src/mr/worker.go:71-75 | outputs made partition by partition have no key in common and together hold exactly the lines of the output made of everything |
| MrCoordinator.Coordinator.constructor | src/mr/coordinator.go:156-183 | all tasks idle, map phase, not done |
| MrCoordinator.Coordinator.FindIdleTask | src/mr/coordinator.go:82-89 | the first idle task, or -1 if there is none |
| MrCoordinator.Coordinator.GetTask | src/mr/coordinator.go:27-80 | the loops over the tasks find the task to hand out and change the object as MrTasks.HandsOut says |
| MrCoordinator.Coordinator.ReportTask | src/mr/coordinator.go:91-106 | only a task in progress, in its own phase, becomes completed |
| MrCoordinator.Coordinator.CheckTimeout | src/mr/coordinator.go:108-132 | exactly the late tasks in progress, of the present phase, become idle |
| MrCoordinator.Coordinator.Done | src/mr/coordinator.go:150-154 | the done flag |
| MrTasks.HandsOut | src/mr/coordinator.go:27-80 | which task is handed out, and that it names the least idle id, the file of that id, the number of reduce tasks and the number of files; exactly when a worker has to wait, the phase changes, and the coordinator is done |
| MrTasks.ReportCompletes | src/mr/coordinator.go:91-106 | exactly the reported task, and only if it is in progress in its own phase, becomes completed |
| MrTasks.TimeoutTakesBack | src/mr/coordinator.go:108-132 | exactly the late tasks in progress of the present phase become idle |
| MrRuns.PhasesAreEarned | src/mr/coordinator.go:45-73 | reducing means every map task was carried out by a finished execution and reported, done means the same for reduce tasks |
| MrRuns.CompletedForGood | src/mr/coordinator.go:91-106 | completed, the reduce phase and done are permanent |
| MrRuns.HandOutsAreCounted | src/mr/coordinator.go:32-44 | a task was handed out as often as it timed out, plus once exactly if it is not idle |
| MrRuns.DistributedIsSequential | src/mr/worker.go:57-137 | workers do what their task says with its file, number of reduce tasks and number of files; once the coordinator is done, the output files exist, share no key, and together hold exactly the lines of the sequential program, for every schedule |
| MrCalls.MapsAlone | src/mr/worker.go:57-92 | a map task whose steps are not interrupted leaves exactly the files that DoMap leaves |
| MrCalls.ReducesAlone | src/mr/worker.go:94-137 | a reduce task whose steps are not interrupted leaves exactly the output that DoReduce leaves |
| MrTruncate.GuardedIsRun | src/mr/worker.go:77-137 | a run with creating a file and writing it bit by bit, in which no reduce task reads a file that is not written to the end, is a run of whole writes but for the files that are cut at the moment |
| MrTruncate.GetsItsDue | src/mr/worker.go:97-112 | a reduce task gets exactly the pairs a map task made for it if and only if the file is written to the end or has to be empty |
| MrTruncate.GuardedIsSequential | src/mr/worker.go:77-137 | in such a run the outputs hold exactly the lines of the sequential program, once the coordinator is done, if and only if every output file that is not written to the end is one that has to be empty |
| MrTornRun.LineIsLost | src/mr/worker.go:77-112 | a run in which a late map execution empties a file before it is read, and the line of the sequential program is in no output |

## Left out

- RaftTheorems.StateMachineSafety: its runs build each message in one step; with the two locks of the heartbeat it is proved in RaftTwoLocks where every message is harmless, and fails otherwise (RaftDummyRun). A service's snapshot is never empty in the runs.
- RaftTheorems.LogMatching: its runs build each message in one step; with the two locks of the heartbeat it is proved in RaftTwoLocks where every message is harmless, and fails otherwise (RaftDummyRun).
- RaftTheorems.CommittedAgree: its runs build each message in one step; with the two locks of the heartbeat it is proved in RaftTwoLocks where every message is harmless, and fails otherwise (RaftDummyRun).
- RaftTheorems.CommitNeverDrops: its runs build each message in one step; with the two locks of the heartbeat it is proved in RaftTwoLocks where every message is harmless, and fails otherwise (RaftFallRun).
- RaftTheorems.Discipline: its runs build each message in one step; with the two locks of the heartbeat it is proved in RaftTwoLocks where every message is harmless, and fails otherwise (RaftFallRun).
- RaftTheorems.AppliesInOrder: its runs build each message in one step; with two locks it is part of RaftTwoLocks.Discipline.
- RaftTheorems.CommittedIsNotCut: its runs build each message in one step; with two locks see RaftTwoLocks.CommittedIsNotCut.
- RaftTheorems.ElectionSafety: its runs build each message in one step; with two locks see RaftTwoLocks.ElectionSafety.
- RaftTheorems.LeadersAreComplete: its runs build each message in one step; with two locks see RaftTwoLocks.LeadersAreComplete. Says nothing of the commands inside a snapshot, because a service may save anything; RaftService.LeadersCarryAll does, for services that save what they have applied.
- RaftBackoff.BackoffInRun: its runs build each message in one step; with two locks it applies to guarded runs, by RaftHeartbeat.GuardedIsRun.
- RaftService.BehindMeansOut: its runs build each message in one step; with two locks it applies to guarded runs, by RaftHeartbeat.GuardedIsRun.
- RaftTwoLocks.StateMachineSafety: a harmful message need not do harm, as it may be lost; that one is exactly what the invariant does not allow is RaftHeartbeat.HarmlessExactlyWhen.
- RaftService.ServicesAgree: its runs build each message in one step (with two locks see RaftTwoLocks.ServicesAgree); it speaks of runs in which no arriving snapshot is older than what its service has applied; RaftService.BehindMeansOut says what happens otherwise.
- RaftCompaction.CompactionIsInvisible: leaves out the back-off hint, which RaftCompaction.HintSame compares, and messages that start below the snapshot, which the compacted server refuses.
- ShardConfig.JoinIsLocalInRun: covers successful calls; a call that returns false part-way may have changed the groups, and a log.Fatalf ends the process.
- KvLinear.Linearizable: an execution does not outlive its failed attempt, as it could if a handler ran longer than the network waits.
- MrRuns.DistributedIsSequential: writing one file is one step; MrTruncate takes it apart.
- MrTruncate.GuardedIsRun: of two executions that write one file at the same time, the file holds what the last of them wrote so far, and is whole when one has written its last pair; offsets within a file are not modelled.
- KvLoops.PutIsInRun: says that the outcomes of the loop are in the runs; that the runs have no others is said by the theorems of KvLinear about all runs.
- Time: election timeouts, lastContact, heartbeat intervals, sleeps and the ten seconds of checkTimeout are free choices of the environment, and no liveness is proved.
- Goroutine order on applyCh: what one region hands over reaches the service at once and in order.
- labgob and JSON: encoding and decoding returns the same value; the Raft state and the snapshot are saved together.
- labrpc, sockrpc, demux, daemons and the tester, beyond losing, delaying and reordering messages.
- Hash bodies (ihash, Key2Shard): any function into the naturals.
- The order of keys that KvModel.Partition returns: the model is stated key by key.
- 64-bit wrap of versions, terms and indices: naturals are used.
- ShardConfig.Copy, String, FromString, GidServers, IsMember, and the other test helpers of kvtest: easy members.
- Unfinished stubs: kvraft, rsm, lock, the shard controller, shard groups and the sharded clerk.
- Input files of MapReduce: taken to be there and not to change; for a worker that cannot read its file log.Fatalf is a crash.
- Library sorts: an insertion sort stands for each, and only what any sort guarantees is used.
