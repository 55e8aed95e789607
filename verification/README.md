# Verified models of a Go distributed-systems repository

A Dafny project that models the protocols and algorithms of the repository and proves what they
promise, for every run and every input. It covers:

- **Raft consensus** (`src/raft1/raft.go`): elections, replication, fast backtracking, the commit rule,
  crash and restart, as a cluster of servers over a network that loses, delays, repeats and reorders
  messages; then one server's compacted log through any sequence of events, and its apply loop.
- **Shard migration** (`src/shardkv1/`): any number of controllers, possibly stale, moving shards between
  groups while clients read and write; how configurations are published; how shards are rebalanced.
- **The versioned key/value service** (`src/kvsrv1/`, `src/kvraft1/`, `src/models1/kv.go`): the retrying
  clerk, the lock built on it, and the replicated state machine.
- **MapReduce** (`src/mr/worker.go`, `src/main/mrsequential.go`): the distributed data path against the
  sequential program.

Check the whole project with `dafny verify dfyconfig.toml`.

## How the models are built

Code that updates fields in place is a class (`RaftObject.Raft`, `KeyValue.KVServer`, `ShardGroup.KVServer`,
`LockService.Lock`, `Rsm.RSM`, `ConfigStore.ShardCtrler`, `Rebalance.ShardConfig`). Each method is proved
to do to the object's value what a specification function says. Protocols are state machines over those
functions: a *run* is a sequence of states and a sequence of steps, every region of code that holds a lock
is one step, and messages are never removed from the network, so each may be handled late, again or never.
A step of Raft or of the apply loop that would index out of range is allowed to lead anywhere, so the
theorems also say that this never happens. Safety alone would hold of a program that refuses everything, so
each protocol also has a theorem that it can always go on: from every reachable state there is a
continuation that commits, delivers, migrates, publishes or acquires. What single regions answer is stated
for every input on the absolute log or the table (`RaftOutcomes`, `ShardGroup.ClientOutcome`,
`ShardGroup.MoveOutcome`, `Clerk.AnswerIsServers`).

| module | what it holds |
|---|---|
| `Quorum` | majorities, vote counts and medians |
| `RaftServer`, `RaftOutcomes`, `RaftObject` | one server: specification functions, what each gives its caller, and the object with its methods |
| `RaftCluster` | the runs of `n` servers |
| `RaftInvariant`, `RaftLogs`, `RaftGrowth`, `RaftRecord`, `RaftElections`, `RaftReplication` | the inductive invariant and what each step does to it |
| `RaftSafety`, `RaftValidity`, `RaftQuorumSize` | the theorems about runs, and for which cluster sizes they hold |
| `RaftCommits`, `RaftCandidates`, `RaftProgress` | what exactly a leader has committed; that elections and commits are always possible |
| `RaftBacktracking`, `RaftRefusals`, `RaftStale` | backtracking: one refusal, the bound over runs, and why no bound holds for a whole leadership |
| `RaftCompaction`, `RaftApply` | trimmed logs, the apply loop |
| `KeyValue`, `Clerk`, `LockService`, `Rsm` | the store and its specification, the clerk, the lock, the replicated service |
| `ShardGroup`, `ShardMigration`, `ShardProgress`, `ShardGap` | one group, migration, that it can always be completed, and why configurations must not be skipped |
| `ConfigStore`, `Rebalance` | publication of configurations, rebalancing |
| `MapReduce` | both programs and their equality |

## Properties that hold only under a condition

Eight properties one would expect fail for some inputs or runs. For each there is a run or an input that
shows it, and a condition under which the code meets it is proved: the exact one, except where it is said
below to be only enough.

- The vote threshold `(len(peers)+1)/2` is half of an even cluster. One leader per term holds in every run
  if and only if `n` is odd or at most 2 (`RaftQuorumSize.ElectionSafetyIffQuorum`).
- A candidate counts votes only when a reply comes, so a single server never leads. A command can be committed
  from every reachable state if and only if there are at least two servers (`RaftProgress.CommitsIffSeveral`).
- The refusals a leader takes from a peer are not bounded over a leadership: a refusal is recognised only by
  `nextIndex`, and one that arrives again after a success sends the leader back again
  (`RaftStale.RefusalsUnbounded`). It is enough that no success comes in between: then they are at most the
  terms of the peer's log (`RaftRefusals.RefusalsBounded`).
- The sequential specification never allows `ErrNoKey` for a Put, which the server answers to a Put with a
  version for a key nobody has put at version 0. A history with such a Put has no linearization
  (`Clerk.PrematurePut`). As long as no call is applied after its clerk has returned, the histories without
  one are exactly the linearizable ones (`Clerk.HistoriesLinearizable`). A request may also be executed after its
  call has failed: then a history without one may have no linearization either (`Clerk.StrayWrite`), and it is enough
  that clerks ask only for versions the server had reached (`Clerk.ReachedHistoriesLinearizable`).
- `Release` frees the lock exactly when the lock was acquired by an `OK`; after `resync` finds the client's own
  id the lock is never free again (`LockService.ReleaseFreesIffAcquiredByOk`, `LockService.LostReplySticks`).
- `Restore` merges into the map it finds, and `InstallSnapshot` lets a snapshot through that is older than what
  the service has applied. The service's map is the replay of the log throughout if and only if every
  snapshot has all the keys the log had created by then (`Rsm.ServiceIsReplay`); there is a run in which one
  has not (`Rsm.GoesBack`).
- A controller reads the published configuration and the one to apply separately, so it may find them more
  than one apart, and does in a run of two controllers that are each asked for the next number
  (`ConfigStore.GapReached`). Migration refines one map in every run if and only if it never does
  (`ShardGap.RefinementIffConsecutive`).
- Pairs survive the worker's text files exactly when no key holds a space or a newline and no value a newline
  (`MapReduce.RoundTripIffClean`).

The repository's own README (lines 19-20) calls `src/kvraft1/` and `src/shardkv1/` skeletons; the files hold
implementations, and the models follow the code.

## Model

| member | source | states |
|---|---|---|
| RaftSafety.StateMachineSafety | src/raft1/raft.go:213-535 | in every run, over any loss, repetition, reordering, crashes and restarts, two servers that ever count index `i` as committed hold the same log up to `i`, whenever each is observed |
| RaftSafety.LeaderCompleteness | src/raft1/raft.go:266-283 | what any server ever counts as committed is in the log of every leader of a later term, whenever observed, and of a leader of the same term from then on |
| RaftSafety.ElectionSafety | src/raft1/raft.go:335-372 | two servers that ever lead in one term, at whatever times and across restarts, are one server, although a same-term follower may still count votes and vote replies may be repeated |
| RaftSafety.LogMatching | src/raft1/raft.go:418-473 | terms never decrease within a log; logs of any servers at any times that have the same term at an index are equal up to it |
| RaftSafety.CommitIsConfirmed | src/raft1/raft.go:727-741 | whenever a leader's commit index rises, the entry is of its own term and more than half of the peers have confirmed it in that term, although `matchIndex` starts at the commit index |
| RaftSafety.IndicesNeverFall | src/raft1/raft.go:515-535 | within a leadership no `matchIndex` falls; no commit index falls except by a restart, although it is assigned without a maximum |
| RaftSafety.FollowerCommitBound | src/raft1/raft.go:458-472 | an accepted message carries at least as many entries as the leader has committed, so the bound by the follower's own log length is the bound by the last new entry |
| RaftCommits.CommittedIffMajority | src/raft1/raft.go:727-741 | at every moment of every run an entry of a leader's own term is committed there if and only if more than half of the `matchIndex` values reach it |
| RaftSafety.NeverOutOfRange | src/raft1/raft.go:554-569 | no step of any run indexes a log, a vote or a peer array out of range |
| RaftSafety.StepKeeps | src/raft1/raft.go:213-535 | every step keeps the inductive invariant with a history that only grows |
| RaftValidity.Validity | src/raft1/raft.go:213-230 | nothing is invented: whatever any server of any run has at an index past the sentinel, an earlier `Start` put at that index on the server that then led the entry's term |
| RaftProgress.CommandCanCommit | src/raft1/raft.go:213-569 | from every reachable state of two or more servers, after whatever crashes, lost messages and competing leaders, a continuation commits a given new command at one index on every server |
| RaftProgress.CommitsIffSeveral | src/raft1/raft.go:335-382 | that holds of every reachable state if and only if there is more than one server |
| RaftProgress.LoneServerNeverLeads | src/raft1/raft.go:363-382 | no run of a single server has a leader |
| RaftCandidates.ElectionCanSucceed | src/raft1/raft.go:250-382 | from every reachable state of two or more servers some server can win an election and then leads servers that all follow it, no log having changed |
| RaftCandidates.SomeoneIsLatest | src/raft1/raft.go:266-283 | among any servers there is one whose last entry every other finds at least as late as its own |
| RaftOutcomes.VoteGrantedIff | src/raft1/raft.go:250-287 | a vote is granted if and only if the term is not stale, nobody else has the vote of that term, and the candidate's last term and index are lexicographically at least those of the voter's last entry; and what else changes |
| RaftOutcomes.OneOfTwoVotes | src/raft1/raft.go:266-283 | of any two servers, whatever their logs, one gets the other's vote by standing in a later term |
| RaftOutcomes.VoteWinsIff | src/raft1/raft.go:335-360 | a counted vote makes a leader if and only if the voters are then at least half; a later term ends the candidacy; anything else is ignored |
| RaftOutcomes.ElectionOutcome | src/raft1/raft.go:363-382 | a candidate asks for the next term with its last index and term, and has only its own vote |
| RaftOutcomes.StartOutcome | src/raft1/raft.go:213-230 | a leader puts the command at the index it returns, which is the old end of its log, with its current term, and changes nothing below; any other server changes nothing |
| RaftOutcomes.EntriesOutcome | src/raft1/raft.go:554-569 | a message holds the leader's log from `nextIndex` to its end, entry by entry, and the term before it |
| RaftOutcomes.AppendOutcome | src/raft1/raft.go:418-473 | success if and only if the term is not stale and the previous entry is there above the snapshot with the given term; then the merge and the follower's commit index; otherwise log and commit index stay |
| RaftOutcomes.MergeOutcome | src/raft1/raft.go:459-467 | the log itself if every entry sent is matched by term, else the log up to the first that is not and from there what was sent |
| RaftOutcomes.CoveredOutcome | src/raft1/raft.go:443-448 | a message from below the snapshot is refused with the snapshot's term and index |
| RaftOutcomes.ReplyOutcome | src/raft1/raft.go:504-535 | a later term ends the leadership, a reply to anything but the current position is ignored, a refusal moves the position to where it points, and after a success the next message starts where the confirmed one ended |
| RaftOutcomes.CommitOutcome | src/raft1/raft.go:727-741 | with or without compaction, the commit index moves only to an entry of the current term that a majority hold, and to no less than any such entry |
| RaftOutcomes.SnapshotOutcome | src/raft1/raft.go:182-198 | a newer snapshot is kept with the term at its index, and every entry after it stays where it was; an older one is ignored |
| RaftOutcomes.InstallOutcome | src/raft1/raft.go:635-664 | a snapshot is taken if and only if its term is not stale and it covers more; a log that reaches it with its term keeps every entry after it, any other log ends at it |
| RaftOutcomes.EntriesAfterSnapshot | src/raft1/raft.go:554-569 | a peer that takes the snapshot a leader sends has its data and accepts the leader's entries from there on |
| RaftOutcomes.InstallReplyOutcome | src/raft1/raft.go:666-698 | after its reply to the leader's current snapshot a peer is sent entries again, no index is lowered, and those of others stay; a reply of a later term ends the leadership, and any other is ignored |
| RaftOutcomes.RestartOutcome | src/raft1/raft.go:75-140 | saving what was started from a disk gives the disk back, and starting from what was saved gives back term, vote, log and snapshot bytes |
| RaftQuorumSize.ElectionSafetyIffQuorum | src/raft1/raft.go:85 | at most one leader per term in every reachable cluster of `n` servers, if and only if `n` is odd or at most 2 |
| RaftQuorumSize.EvenClusterSplits | src/raft1/raft.go:348-357 | for every even `n` of at least 4, a run that ends with two leaders of one term |
| Quorum.MedianIsMajority | src/raft1/raft.go:730-733 | the sorted median is at least `c` exactly when more than half of the values are |
| RaftLogs.MergeTakesLeader | src/raft1/raft.go:458-467 | merging the leader's tail into a log that agrees with it before the tail gives the leader's log, or keeps a log that already contains it |
| RaftLogs.LeaderHasCommitted | src/raft1/raft.go:266-283 | the winner of a later term stood with a log that holds every committed entry |
| RaftCompaction.SnapshotInvisible | src/raft1/raft.go:182-198 | taking a snapshot leaves the absolute log unchanged |
| RaftCompaction.AppendEntriesInvisible | src/raft1/raft.go:437-490 | at or above the snapshot a trimmed server gives the verdict and reaches the log and commit index of the untrimmed one; the index a refusal reports is the untrimmed first index, but not below the snapshot nor below 1 |
| RaftCompaction.RequestVoteInvisible | src/raft1/raft.go:250-287 | a trimmed server grants exactly the votes the untrimmed one grants and stays its trimming |
| RaftCompaction.StartElectionInvisible | src/raft1/raft.go:363-382 | a trimmed candidate asks for votes with the same index and term |
| RaftCompaction.StartInvisible | src/raft1/raft.go:213-230 | a trimmed leader appends at the same index with the same answer |
| RaftCompaction.EntriesInvisible | src/raft1/raft.go:554-569 | a trimmed leader that still has the entries sends the same message |
| RaftCompaction.RefusalInvisible | src/raft1/raft.go:475-490 | the refusal of a trimmed log reports the same term, and the first index raised to the snapshot and to 1 |
| RaftCompaction.ReceiveVoteInvisible | src/raft1/raft.go:327-361 | a trimmed candidate counts the votes the untrimmed one counts, wins with the same one, and starts with the same indices |
| RaftCompaction.ReceiveAppendInvisible | src/raft1/raft.go:504-535 | a trimmed leader takes the replies the untrimmed one takes, moves the same indices and commits up to the same median |
| RaftCompaction.InstallInvisible | src/raft1/raft.go:635-664 | a snapshot from a leader leaves a trimmed server as the trimming of one that was sent the covered entries instead, so nothing after it is lost |
| RaftCompaction.CompactionInvisible | src/raft1/raft.go:182-664 | through any sequence of elections, votes, submissions, appends, replies and snapshots, its service's and leaders', that a trimmed server can take, it gives the answers, and asks for votes, as a server that never trims and is sent entries instead of snapshots; only the index of a refusal is raised to the snapshot |
| RaftBacktracking.RefusedProbe | src/raft1/raft.go:475-490 | a refusal reports the term in conflict and its first index; the leader goes back exactly there, strictly below where it was |
| RaftBacktracking.RefusalsGoBack | src/raft1/raft.go:524-529 | consecutive refusals report strictly lower terms and strictly lower indices |
| RaftBacktracking.RefusalLeavesLess | src/raft1/raft.go:437-456 | every refusal, whoever asked, leaves fewer distinct terms of the refusing log below the index it sends the leader to |
| RaftBacktracking.RefusalsAtMostTerms | src/raft1/raft.go:437-456 | against an uncompacted follower the refusals before the first success are at most the distinct terms in its log, the sentinel's included |
| RaftBacktracking.BacktrackingBound | README.md:33-35 | at any time in any run, a leader and a peer that is not ahead of its term are at most that many refusals apart |
| RaftRefusals.RefusalsBounded | src/raft1/raft.go:504-529 | in every run, over any stretch of a leadership without a success from a peer, the refusals the leader takes from that peer, stale and repeated ones included, are at most the distinct terms of the log the peer refused with |
| RaftRefusals.OneRefusedLog | src/raft1/raft.go:418-456 | whatever happens between them, a peer gives all its refusals to the leader of one term with one and the same log |
| RaftStale.RefusalsUnbounded | src/raft1/raft.go:515-529 | for every number, a run in which one leader takes that many refusals from one peer in one term, although the log the peer refused with has a single term |
| RaftApply.ApplyStreamContiguous | src/raft1/raft.go:573-619 | whatever runs between the unlocked sends, each command delivered has the index after the last command or snapshot and is the committed one, each snapshot is the service's own, nothing uncommitted is delivered, and no log access is out of range |
| RaftApply.CatchesUp | src/raft1/raft.go:573-619 | from every state of every run the loop's own turns lead to where the service has received every committed command and any snapshot that was waiting |
| RaftApply.InstallKeeps | src/raft1/raft.go:635-664 | a snapshot from the leader keeps the committed tail in agreement with the committed log, or replaces a log that ends before it |
| RaftApply.TakeSnapshotKeeps | src/raft1/raft.go:182-198 | a snapshot of what was received last trims only committed entries and records their term |
| RaftObject.Raft.Make | src/raft1/raft.go:75-99 | a server started from a disk holds what was persisted and nothing else |
| RaftObject.Raft.Persist | src/raft1/raft.go:118-140 | after it, a restart would recover exactly the persistent fields as they are |
| RaftObject.Raft.StartElection | src/raft1/raft.go:363-382 | the candidate's state, its request, and the disk agree with the specification |
| RaftObject.Raft.RequestVote | src/raft1/raft.go:250-287 | state, reply and disk are those the cluster proofs use, and the vote is granted exactly under the written-out comparison of last entries |
| RaftObject.Raft.ReceiveVote | src/raft1/raft.go:327-361 | a reply is counted once for each voter and wins exactly at the threshold |
| RaftObject.Raft.CountVotes | src/raft1/raft.go:708-717 | the loop counts the voters, not the replies |
| RaftObject.Raft.BecomeLeader | src/raft1/raft.go:350-357 | the two loops set every `nextIndex` and `matchIndex` of a new leader |
| RaftObject.Raft.Start | src/raft1/raft.go:213-230 | the entry is at the index returned, the old end of the log, with the term returned; it is persisted and sent to every other peer |
| RaftObject.Raft.StartSendEntries | src/raft1/raft.go:554-569 | every other peer is sent the leader's whole tail from its `nextIndex`, or the snapshot when the tail no longer reaches back |
| RaftObject.Raft.AppendEntries | src/raft1/raft.go:418-473 | state, reply and disk are those the cluster proofs use |
| RaftObject.Raft.MergeEntries | src/raft1/raft.go:459-467 | the loop over both logs computes the merge the log-matching proof uses |
| RaftObject.Raft.BuildFailedReply | src/raft1/raft.go:475-490 | the backward loop finds the lowest index of the conflicting term |
| RaftObject.Raft.ReceiveAppend | src/raft1/raft.go:504-535 | stale replies are ignored; a refusal moves `nextIndex`, a success moves both indices and the commit index |
| RaftObject.Raft.UpdateCommitIndex | src/raft1/raft.go:727-741 | the commit index moves only to an entry of the current term that a majority hold, and leaves no such entry of an ordered log uncommitted |
| RaftObject.Raft.TakeSnapshot | src/raft1/raft.go:182-198 | the log is trimmed to a sentinel and its tail, together with the snapshot on disk |
| RaftObject.Raft.InstallSnapshot | src/raft1/raft.go:635-664 | a log that reaches the snapshot with its term keeps its length and every entry after it, any other ends at it; the commit index is raised, and the snapshot marked for the apply loop |
| RaftObject.Raft.ReceiveInstall | src/raft1/raft.go:677-698 | state and disk after the reply to a snapshot are those `RaftOutcomes.InstallReplyOutcome` describes |
| RaftObject.Raft.Proceed | src/raft1/raft.go:575-605 | the locked region up to the next send: the pending snapshot first, else the next committed command |
| RaftObject.Raft.AfterSend | src/raft1/raft.go:587-611 | the locked region after a send: a newer snapshot stops the commands, and only the snapshot that was sent counts as applied |
| KeyValue.PutEffect | src/kvsrv1/server.go:61-90 | a Put answers `OK` exactly when the version matches, then changes only its key and raises its version by one; keys never disappear |
| KeyValue.ServerRefinesModel | src/models1/kv.go:44-67 | each execution is a step of the sequential specification and touches no other key, except exactly for a Put with a nonzero version of a key the server does not have, which it answers `ErrNoKey` |
| KeyValue.KVServer.HandlePut | src/kvsrv1/server.go:61-90 | the handler does to the map what the specification function says |
| KeyValue.KVServer.HandleGet | src/kvsrv1/server.go:42-55 | the handler reads the map, with the empty value and version 0 for an absent key |
| Clerk.HistoriesLinearizable | src/models1/kv.go:44-67 | in every run of any clerks with lost requests and replies and late executions, a linearization, in any order and with any of the pending operations, exists only if no completed Put asked for a version of a key before some Put at version 0 of it was executed; and, as long as nothing was applied after its clerk had returned, if and only if; one then ends in the server's state |
| Clerk.ReachedHistoriesLinearizable | src/kvsrv1/client.go:32-88 | with Puts only of versions the server had reached when they were invoked, every history of every run is linearizable, however late requests are executed |
| Clerk.SaidNoKeyIff | src/kvsrv1/server.go:61-90 | a completed Put returned `ErrNoKey` if and only if its version is nonzero and no Put at version 0 of its key had been executed before the answer |
| Clerk.KeyInStoreIff | src/kvsrv1/server.go:65-78 | the server has a key exactly when some execution so far was a Put of it at version 0 |
| Clerk.NoOrderAccepted | src/models1/kv.go:44-67 | the specification accepts no order of operations that holds a Put answered `ErrNoKey` |
| Clerk.PrematurePut | src/kvsrv1/client.go:65-88 | the run of one clerk that puts version 1 of a new key has no linearization |
| Clerk.StrayWrite | src/kvsrv1/client.go:65-88 | a run without such a Put that has none either, because a request was applied after its clerk had returned |
| Clerk.PromptRunsSettled | src/kvsrv1/client.go:32-88 | if failed calls are executed only while their clerk is still trying, nothing is applied late |
| Clerk.ChosenOncePerOp | src/kvsrv1/client.go:32-88 | where nothing was applied late, every completed operation has exactly one chosen execution, inside its interval |
| Clerk.RespectsRealTime | src/kvsrv1/client.go:32-88 | there, an operation that returned before another was invoked comes before it in the linearization |
| Clerk.OutcomeTellsEffect | src/kvsrv1/client.go:65-88 | with late executions: `OK` means applied, `ErrVersion` never applied, `ErrNoKey` not applied by anything executed before the answer, and no Put is applied by more than one of its executions |
| Clerk.AnswerIsServers | src/kvsrv1/client.go:65-88 | in every run a clerk returns what the server answered in the execution that got through, and `ErrMaybe` if and only if that was `ErrVersion` to a Put one of whose calls was lost before |
| Clerk.AppliedOnlyOnce | src/kvsrv1/client.go:65-88 | once a Put has been applied, every later execution of it is refused with `ErrVersion` |
| Clerk.ClerkPut | src/kvsrv1/client.go:65-88 | the retry loop, given the fate of each call, returns and leaves what the specification function says |
| Clerk.PutAloneEffect | src/kvsrv1/client.go:65-88 | however often it is retried, a Put without interference changes the store as one execution would; its answer is that execution's, but `ErrMaybe` for an `OK` whose reply was lost and for an `ErrVersion` after any call was lost |
| LockService.MutualExclusion | src/kvsrv1/lock/lock.go:42-74 | two clients never hold the lock together; the holder is the one stored, at an odd version, and no other client's next Put carries that version |
| LockService.OddIffOwned | src/kvsrv1/lock/lock.go:56-74 | the stored version is odd exactly when the value is some client's id |
| LockService.ReleaseFreesIffAcquiredByOk | src/kvsrv1/lock/lock.go:71-74 | a holder's Release frees the lock if and only if the lock was acquired by an `OK` |
| LockService.ResyncedLockNeverFreed | src/kvsrv1/lock/lock.go:42-54 | a lock acquired through `resync` keeps its value and version in every continuation |
| LockService.LostReplySticks | src/kvsrv1/lock/lock.go:45-47 | one lost reply is enough: a run of a single client that ends there |
| LockService.LockCanPass | src/kvsrv1/lock/lock.go:42-74 | from every reachable state in which the lock is free, or held through an `OK`, it can pass to any idle client, which then holds it through an `OK` |
| LockService.ResyncOutcome | src/kvsrv1/lock/lock.go:42-54 | the version `resync` leaves is accepted at once if the lock is free, and as soon as its owner frees it if it is another's, and is refused for freeing a lock of the client's own |
| LockService.Lock.Acquire | src/kvsrv1/lock/lock.go:56-69 | the loop computes the client the step system has, for any answers |
| LockService.Lock.Resync | src/kvsrv1/lock/lock.go:42-54 | the version kept after each of the three things `resync` may find |
| LockService.Lock.Release | src/kvsrv1/lock/lock.go:71-74 | however its calls fare, the store is as after one Put of the free mark at the version kept, the lock is free exactly if that was the stored version or it was free before, and the version moves on whatever the Put returned |
| Rsm.ServiceIsReplay | src/kvraft1/rsm/rsm.go:137-170 | in every run of a server and its apply loop, the map has been the replay of the committed log up to the last index received after every message, if and only if every snapshot received had all the keys that replay had |
| Rsm.MapIsReplayIff | src/kvraft1/server.go:55-108 | the same for every contiguous stream, from any starting index |
| Rsm.GoesBack | src/raft1/raft.go:635-664 | a run of the apply loop that delivers indices 1 and 2 and then the snapshot of index 1, after which the map is no replay |
| Rsm.NewerIsExact | src/kvraft1/server.go:102-108 | a snapshot at or above the index received last always has all the keys |
| Rsm.RestoreExactIff | src/kvraft1/server.go:102-108 | a merging restore gives exactly the snapshot if and only if the map has no key the snapshot lacks |
| Rsm.OlderSnapshotExactIff | src/kvraft1/server.go:102-108 | a snapshot older than what was applied is restored exactly if and only if no key was created since |
| Rsm.SubmitReturnsOwnResult | src/kvraft1/rsm/rsm.go:98-163 | with operations of any servers in the log, each delivered from where a `Start` put it, a Submit that returns `OK` returns the result of its own request: the operation delivered at its index is the one it handed over, executed on the map that the messages before it gave |
| Rsm.SubmitAnsweredIff | src/kvraft1/rsm/rsm.go:98-163 | nobody waits in vain: a turn of Submit returns a result if and only if its operation has been delivered at all, and `ErrWrongLeader` if and only if it has not and the term was lost |
| Rsm.SubmitSeesReplay | src/kvraft1/rsm/rsm.go:98-163 | while the snapshots received had all the keys, that map is the replay of the log before its index |
| Rsm.RSM.Submit | src/kvraft1/rsm/rsm.go:98-117 | a submission takes a new id, hands the operation to the `Raft` object, and opens a channel under id, server and the index at which the operation then is in its log |
| Rsm.RSM.Wait | src/kvraft1/rsm/rsm.go:119-135 | a turn of the waiting loop takes the result if there is one, gives up if the term was lost, and removes the channel whenever it returns |
| Rsm.RSM.ApplyCommand | src/kvraft1/rsm/rsm.go:148-163 | the operation is executed and its result handed only to the reader of that id, server and index |
| Rsm.RSM.DoOp | src/kvraft1/server.go:55-92 | the service executes a request as the single server does |
| Rsm.RSM.Restore | src/kvraft1/server.go:102-108 | the snapshot's keys get its values and the others keep theirs, so the map becomes the snapshot if and only if it had no other key |
| ShardMigration.RefinesUnshardedMap | src/shardkv1/shardctrler/shardctrler.go:128-230 | for any number of controllers and Freeze, Install and Delete requests executed late, again or out of order, there is one unsharded versioned map such that a group that works on a key's shard answers every Get and Put as the map does, every other group says `ErrWrongGroup`, and nothing else changes the map |
| ShardProgress.MigrationCanComplete | src/shardkv1/shardctrler/shardctrler.go:128-230 | from every reachable state, whatever other controllers left behind, any controller can publish the next configuration; then every shard works at its owner in it and is gone from the owner it left |
| ShardProgress.WorkingOrMoving | src/shardkv1/shardgrp/server.go:97-228 | at every moment of every run each shard is worked on by a group, or frozen at its owner for the next configuration |
| ShardMigration.OneWorkingGroup | src/shardkv1/shardgrp/server.go:97-228 | at most one group works on a shard, at every moment of every run |
| ShardMigration.AcceptedPutSurvives | src/shardkv1/shardgrp/server.go:97-150 | after a Put was accepted, every Get executed by a group that then works on the shard sees its value or a later version |
| ShardMigration.AcceptedVersionsDiffer | src/shardkv1/shardgrp/server.go:99-132 | Puts of one key accepted one after the other, by whichever groups, carry strictly rising versions |
| ShardMigration.InstallsFrozenState | src/shardkv1/shardctrler/shardctrler.go:187-216 | an installation that takes effect never installs the empty state a refused freeze leaves behind |
| ShardMigration.StepKeepsInv | src/shardkv1/shardctrler/shardctrler.go:147-181 | every step keeps the migration invariant and simulates a step of the unsharded map |
| ShardMigration.InstallMoves | src/shardkv1/shardgrp/server.go:183-205 | the installation that counts gives the next owner exactly the frozen table, and requests under way stay harmless |
| ShardMigration.FreezeAtHome | src/shardkv1/shardgrp/server.go:151-182 | the freeze for the next configuration stops the owner and hands out its table |
| ShardMigration.PublishKeepsInv | src/shardkv1/shardctrler/shardctrler.go:166-181 | when a controller publishes, every moved shard has been installed |
| ShardGap.RefinementIffConsecutive | src/shardkv1/shardctrler/shardctrler.go:144-150 | every run of every plan refines one map if and only if controllers take configurations one at a time |
| ShardGap.SkippingLosesWrites | src/shardkv1/shardctrler/shardctrler.go:144-181 | with a gap of two, a run that no unsharded map explains: an accepted write is missing from an answered read |
| ShardGap.TwoWorkingGroups | src/shardkv1/shardctrler/shardctrler.go:183-216 | with a gap of two, a run after which two groups work on one shard |
| ShardGroup.RequestIsLocal | src/shardkv1/shardgrp/server.go:97-228 | no request changes another shard or lowers a configuration number |
| ShardGroup.ClientOutcome | src/shardkv1/shardgrp/server.go:97-150 | a client is told `ErrWrongGroup` if and only if the group does not work on the key's shard; one that does answers from the shard's table, and a Put changes only that table |
| ShardGroup.MoveOutcome | src/shardkv1/shardgrp/server.go:151-228 | exactly when a freeze, an installation or a deletion is carried out, what is then left of the shard, and what is answered |
| ShardGroup.KVServer.constructor | src/shardkv1/shardgrp/server.go:347-357 | the first group works on every shard from the first configuration, the others on none |
| ShardGroup.KVServer.Execute | src/shardkv1/shardgrp/server.go:97-228 | each of the five requests does to the two maps what the specification function says; Get and Put answer from the table of a working shard and `ErrWrongGroup` otherwise |
| ConfigStore.NumbersIncrease | src/shardkv1/shardctrler/shardctrler.go:102-126 | over every interleaving of controllers and late or repeated Puts, what is stored under either key gives way only to a higher number |
| ConfigStore.OneContentPerNumber | src/shardkv1/shardctrler/shardctrler.go:102-181 | a number never has two contents, whichever of the two keys holds them and whenever |
| ConfigStore.PublishedWasApplied | src/shardkv1/shardctrler/shardctrler.go:166-181 | every configuration published was earlier stored to be applied, and is never newer than that key |
| ConfigStore.GapReached | src/shardkv1/shardctrler/shardctrler.go:128-150 | a run of two controllers, each asked for the next number, in which one is moving from the published configuration to one two numbers ahead |
| ConfigStore.ConfigCanBePublished | src/shardkv1/shardctrler/shardctrler.go:102-181 | from every reachable state, whatever other controllers have under way, an idle controller asked for a new number can save that configuration and publish it |
| ConfigStore.ShardCtrler.InitConfig | src/shardkv1/shardctrler/shardctrler.go:71-76 | on a new store both keys end up with the first configuration at version 1, whatever calls are lost |
| ConfigStore.ShardCtrler.SaveApplyConfig | src/shardkv1/shardctrler/shardctrler.go:102-126 | each Put is made at the version just read, over a lower number; the loop ends only on a successful Put or on a number at least as high |
| ConfigStore.ShardCtrler.PublishConfig | src/shardkv1/shardctrler/shardctrler.go:167-180 | the same of the publishing loop |
| Rebalance.RebalanceBalances | src/shardkv1/shardcfg/shardcfg.go:122-154 | with any group at all, every shard ends on a member and no group has two shards more than another |
| Rebalance.RebalanceOptimal | src/shardkv1/shardcfg/shardcfg.go:122-154 | the number of shards relocated is exactly what the start requires, orphans included, and no balanced assignment relocates fewer |
| Rebalance.MovesAreExcessOrDeficit | src/shardkv1/shardcfg/shardcfg.go:140-153 | when all shards start on members, the loop makes as many moves as there is excess above the ceiling or deficit below the floor, whichever is more, and relocates that many shards |
| Rebalance.RebalanceIdempotent | src/shardkv1/shardcfg/shardcfg.go:122-154 | a balanced assignment is left as it is |
| Rebalance.MoveHelps | src/shardkv1/shardcfg/shardcfg.go:140-153 | each move lowers the number of relocations still needed by exactly one, so the loop terminates |
| Rebalance.AdoptHelps | src/shardkv1/shardcfg/shardcfg.go:131-138 | so does each adoption of an orphan |
| Rebalance.NeedIsLowerBound | src/shardkv1/shardcfg/shardcfg.go:122-154 | every balanced assignment relocates at least orphans plus excess, and at least the deficit |
| Rebalance.ShardConfig.Rebalance | src/shardkv1/shardcfg/shardcfg.go:122-154 | the loops over the array compute a function of the shards and the set of groups, so the order in which the map is read does not matter |
| Rebalance.ShardConfig.Analyze | src/shardkv1/shardcfg/shardcfg.go:80-111 | the most and the least loaded group with their counts, the smallest id among equals, for any order of reading the map |
| Rebalance.ShardConfig.LeastLoaded | src/shardkv1/shardcfg/shardcfg.go:115-118 | the least loaded group, or -1 when there is none |
| MapReduce.BothPrograms | src/mr/worker.go:53-160 | for clean pairs, an order-insensitive reduce, any hash, at least one bucket and any sort by key, a worker run on every map task and then every reduce task panics in none and writes the same multiset of lines as the sequential program run on the same inputs |
| MapReduce.Distributed | src/mr/worker.go:53-71 | all map and then all reduce tasks: it panics exactly if some reduce task cannot parse its files, and otherwise writes one line for each key of each bucket, with all its values |
| MapReduce.CleanNeverPanics | src/mr/worker.go:121-141 | of clean pairs every reduce task can parse its files |
| MapReduce.DistributedEqualsSequential | src/mr/worker.go:90-160 | the lines of all buckets together are those of the sequential program on any sorted rearrangement of the pairs |
| MapReduce.RoundTripIffClean | src/mr/worker.go:108-140 | pairs come back from the text file if and only if no key holds a space or newline and no value a newline |
| MapReduce.ShuffleIsExact | src/mr/worker.go:97-141 | a reduce task reads back exactly its bucket of everything the maps produced, in order |
| MapReduce.BucketHolds | src/mr/worker.go:97-101 | a bucket holds exactly the keys that hash to it, each with all its values in order |
| MapReduce.RunMap | src/mr/worker.go:90-119 | a file for exactly the buckets that get a pair, holding the bucket as text |
| MapReduce.RunReduce | src/mr/worker.go:121-160 | the worker panics exactly when a line has no space; otherwise it writes one line for each key it read, with all its values |
| MapReduce.Sequential | src/main/mrsequential.go:38-84 | with any sort by key, the program writes one line for each key, with all its values |
| MapReduce.GroupAndReduce | src/main/mrsequential.go:68-84 | on sorted pairs the nested loops find each key's whole run once |

## Left out

- RaftSafety.StateMachineSafety: runs do not compact logs, because `InstallSnapshot` neither adopts a larger term nor makes a stale leader step down (src/raft1/raft.go:635-664); compaction is treated for one server in `RaftCompaction` and `RaftApply`. The same holds of the other theorems in `RaftSafety`.
- RaftBacktracking.RefusalsAtMostTerms: between an undisturbed leader and an uncompacted follower; `RaftRefusals.RefusalsBounded` is the bound over runs, and a compacted follower may repeat its snapshot index (src/raft1/raft.go:443-448).
- RaftBacktracking.BacktrackingBound: likewise speaks of what would follow if nothing else happened; `RaftRefusals.RefusalsBounded` speaks of what happens.
- RaftStale.RefusalsUnbounded: equal messages are one message in the model, so a reply taken again stands for the equal replies to several heartbeats.
- RaftCompaction.CompactionInvisible: messages reach at or above the snapshot, and `RaftOutcomes.CoveredOutcome` says what happens to one from below; what a leader's snapshot covers matches the log, as log matching guarantees.
- RaftProgress.CommandCanCommit: says that a continuation exists, not that one is taken; and only of the cluster sizes that elect one leader per term, so not of even sizes above two.
- RaftApply.ApplyStreamContiguous: takes from the cluster proofs that commits and incoming snapshots agree with one committed log, and from the service that it snapshots only the index it last received.
- Rsm.SubmitReturnsOwnResult: for a server that does not restart, since submission ids start again from zero; it takes from the cluster that a delivered operation was put at its index by some server's `Start`, which `RaftValidity.Validity` proves there.
- LockService.MutualExclusion: a call of the lock's clerk is executed before the clerk returns or not at all; late executions are treated in `Clerk`.
- ShardMigration.RefinesUnshardedMap: each group is one atomic machine driven by its replicated log, both configurations are read at once, and a controller that gives up inside a move ends, as the next lock check intends.
- MapReduce.BothPrograms: every task is run once, in order; the coordinator, which hands tasks to several workers and again after ten seconds, is not part of the model.
- ConfigStore.NumbersIncrease: runs start after `InitConfig`; before it `FromString` of the empty value ends the program.
- Slices of the log that an RPC shares with the leader's memory: messages are values.
- Snapshots between servers in runs of the cluster: what the sender and the receiver of one do is stated in `RaftOutcomes` and `RaftCompaction`, for single servers.
- Timers, sleeps, heartbeats, election timeouts and the one-second lease of `acquireLock`: steps happen at any time; progress is proved to be possible from everywhere, not to happen within any time, and nothing is claimed about who holds the controller lock.
- Machine integers: terms, indices, versions and ids are unbounded.
- `labgob`, JSON and FNV: encodings are arbitrary functions with the round trip they need, hashes are arbitrary functions.
- A shard map decoded from an empty state is nil in Go and a write to it would panic; the model reads it as an empty map, and `ShardMigration.InstallsFrozenState` shows it is never installed.
- `src/mr/coordinator.go`: its count of finished tasks can go wrong when a finished task is handed out again, and it adds nothing to the data path.
- The clerks of `src/kvraft1/client.go`, `src/shardkv1/client.go` and `src/shardkv1/shardgrp/client.go`: the retry loop of `src/kvsrv1/client.go` with a search for the leader around it.
- `Join`, `Leave`, `CheckConfig` and `Key2Shard` of `src/shardkv1/shardcfg/shardcfg.go`, which edit the set of groups before a rebalance, test a configuration, and hash a key.
- `src/labrpc`, `src/tester1`, the proxies and the other programs under `src/main`.
