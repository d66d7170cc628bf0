# Stratus in Dafny

Stratus is an EVM ledger: a leader executes transactions, mines them into blocks and serves
followers, which import the blocks and can take over. This project models the parts of it whose
correctness is not visible in any single function, and proves what they promise:

| file | what it models |
|---|---|
| `state_changes.dfy` | merging, finalizing, storing and replicating the state changes of a block |
| `latest_state.dfy` | any number of readers and access-list loaders against one committer: lock, cache, permanent storage, history |
| `latest_reads.dfy` | what each read, load and commit of it comes to |
| `pending_reads.dfy` | the reads of the serial transaction worker, through pending block, last finished block, cache and permanent storage, beside mining, committing and all those threads |
| `storage.dfy` | the storage proxy, one call at a time: number checks, commit, reads, loader |
| `mining.dfy` | workers, automine, `evm_mine`, the interval miner and resets on the four miner locks and the state lock |
| `number_checks.dfy` | that these models check block numbers alike |
| `mining_history.dfy`, `mining_runs.dfy`, `automine.dfy` | the blocks and answers its runs leave behind, its jobs one by one, and automine |
| `locks.dfy`, `locking.dfy` | these locks and their order, and every path that takes them, importers and resets included |
| `worker.dfy` | the retry loop of the transaction worker and its serial task loop |
| `blocks.dfy` | the pending block, block assembly, log numbering, external blocks |
| `roles.dfy` | change-to-leader and change-to-follower of one node, with toggles running beside them |
| `polling.dfy` | the two polling loops of the deploy script |
| `handover.dfy`, `handover_runs.dfy` | the deploy script handing leadership from one node to another, and where its runs lead |
| `base64.dfy`, `utf8.dfy`, `json_text.dfy`, `json_values.dfy`, `envelopes.dfy`, `pagination.dfy` | oversized importer responses: base64, UTF-8, outline and grammar of JSON texts, wire text, leader, follower |
| `timed.dfy` | the `#[timed]` rewriting of function bodies |
| `semaphore.dfy` | the counting semaphore with its condition variable |
| `events.dfy` | account transfer events of a mined transaction |

Concurrent code is a state machine over its steps: `Step`, `Enabled`, `Apply`, and theorems over
every run from an initial state, with any number of threads. Sequential code that changes state is
a class or a method with a loop, proved against a specification whose properties are lemmas. What
comes from outside (clock, network, failures of the database, users) is a parameter or a step.

## What does not hold

Where a promise is false of the code, the model keeps the code, a lemma gives the failing input or
run, and another gives the exact condition.

- A cache entry that is evicted, or cleared with the whole cache, while a read of it that predates its
  last change waits to be cached leaves a stale value behind
  (`LatestState.LossInFlightBreaksCoherence`; exactly when: `LatestState.EvictionIsSafeIff`,
  `LatestState.ClearIsSafeIff`, and over runs `LatestState.InvThroughoutIffCovered`). A comment in the
  source says so of evictions; both role changes clear the cache.
- The same comment says transactions never see such a value, because they look in temporary storage
  first. They do once the next block is finished (`PendingReads.LossInFlightIsMisread`; exactly when:
  `PendingReads.StepKeepsInvIff`, and over runs `PendingReads.InvThroughoutIffExact`).
- A database lookup or write that fails outside the interval miner's retry loop loses the finished
  block, and no block is stored after it (`Mining.LossIsReachable`, `Mining.LossStopsTheChain`; exactly
  when: `Mining.LostIffDatabaseFailsOthers`). A restart or a development reset would end this; neither is
  a step of the machine.
- Without a genesis block, `save_block` lets block 0 move the mined number back and then refuses
  every block (`Storage.MissingGenesisWedgesTheChain`; exactly when: `Storage.GaplessIffGenesis`).
- A fake leader told to become a follower ends as a leader with an importer if the parameters cannot
  be read, or if its importer has ended at its stop block and the new one fails to start
  (`Roles.FakeLeaderCanBreakRoles`; exactly when: `Roles.RolesAgreeIff`).
- A demotion that fails at the importer leaves a leader without a miner, and a promotion does not
  repair it (`Roles.FailedImporterLeavesIdleLeader`; exactly when: `Roles.LeaderStopsMiningIff`).
- Refusing the last question of the deploy script leaves no leader and transactions off
  (`Handover.LateReturnLeavesNoLeader`; a run that does: `HandoverRuns.LastRefusalLeavesNoLeader`).
- A role change whose reply is lost is answered with "nothing changed" when the deploy script repeats it,
  and the script ends in an error with the role changed (`HandoverRuns.LostRoleChangeAborts`); every other request can be
  repeated (`HandoverRuns.LostRepliesAreHarmless`).
- A poll that requires no checks succeeds at the first bad sample
  (`Polling.HasNoPendingTransactions`), or at the first sample at all (`Polling.BlocksSynced`).
- A paginated response does not get through if the limit leaves room for less than one base64
  group, or if it is larger than the follower's cap. A one-message response does not get through if it
  starts like an envelope, and one that is `null` arrives as no response (`Pagination.ResponseArrivesIff`,
  `Pagination.OneMessageArrivesIff`). The limits the leader starts with exclude the first
  (`Pagination.StartedLeaderGetsThroughIff`).
- The `#[timed]` rewriting changes what a body does with metrics compiled in if a duration expression
  changes something or leaves the body (`Timed.MeaningIsPreservedIff`).
- Transfer events panic exactly when there is a transfer and the call data is shorter than four
  bytes (`TransferEvents.TransactionToEvents`); the fallback written for that case is not reached.
- A limit of zero attempts still executes once (`Worker.ExecuteLocalTransactionAttempts`).

## Model

| member | source | states |
|---|---|---|
| `StateChanges.CommitStoresResults` | src/eth/storage/permanent/rocks/rocks_state.rs:221-255 | Although only changed entries and fields are written, reading any touched key afterwards gives what the execution ended with, and no other key changes |
| `StateChanges.UnchangedFieldsAreKept` | src/eth/storage/permanent/rocks/rocks_state.rs:221-255 | Whatever a block was executed on, storing it never overwrites an account field it did not change |
| `StateChanges.MergeComposes` | src/eth/executor/types/state/mod.rs:131-137 | Merging two executions, the second run on the first's state, commits to the same state as committing them one after the other, and is again complete for the state before both |
| `StateChanges.BlockCommitsLikeItsTransactions` | src/eth/executor/types/state/mod.rs:106-164 | For any number of transactions, one batch for the block gives the state of committing them one by one |
| `StateChanges.PublishesOnlyChanges` | src/eth/executor/types/state/mod.rs:167-193 | Published are exactly the changed entries of addresses that are not ignored, each with its changed fields alone |
| `StateChanges.ReplicationReachesTheSameState` | src/eth/executor/types/state/mod.rs:167-193 | A follower in the leader's state that completes and commits the published changes reaches the leader's next state |
| `StateChanges.FollowerKeepsUp` | src/eth/executor/types/state/mod.rs:167-193 | After any number of imported blocks, each completed against its own state, such a follower is in the leader's state |
| `LatestState.RunPreservesInv` | src/eth/storage/stratus_storage.rs:167-209 | One invariant over cache, history, lock value, mined number and every thread is kept by every run of any number of readers and loaders with a committer, if no entry is lost while a stale read of it waits to be cached |
| `LatestState.CacheIsCoherent` | src/eth/storage/stratus_storage.rs:262-274 | In every such run each cached key the committer is done with equals the latest permanent state |
| `LatestState.UnguardedReadsLagAtMostOneBlock` | src/eth/storage/stratus_storage.rs:167-209 | A read without the state lock returns the value at the tip of that moment or at the block before it, never an older one |
| `LatestReads.PermanentAnswerIsCurrent` | src/eth/storage/stratus_storage.rs:182-187 | In every such run a read of permanent storage answers with the value at the tip of that moment, whether or not a commit is running |
| `LatestReads.CachedAnswerIsCurrent` | src/eth/storage/stratus_storage.rs:172-178 | And a cache hit with the same value unless the running commit has yet to cache that very key: only then does a reader without the lock lag |
| `LatestReads.ReadIsAnswered` | src/eth/storage/stratus_storage.rs:167-209 | A read of any kind, let run, is answered for its key as of its pinned or past block, with the cached or else the current value; nothing but the reader changes, and exactly what came from the latest permanent state, not for the pending block, waits to be cached |
| `LatestReads.HeaderIsAnswered` | src/eth/storage/stratus_storage.rs:325-343 | A call that asks gets the header of its pinned block |
| `LatestReads.CallReadsTheMinedBlock` | src/eth/storage/resolve_pending.rs:75-92 | A call reads the mined block through cache and latest state, not history, and has cached what was missing |
| `LatestReads.LatestReaderReadsTheLatest` | src/eth/storage/stratus_storage.rs:167-209 | A reader of the latest state takes the cached or else the current value, and has cached what was missing |
| `LatestReads.PendingReaderCachesNothing` | src/eth/storage/stratus_storage.rs:202-207 | One of the pending state takes the same and has nothing cached |
| `LatestReads.PastReaderReadsHistory` | src/eth/storage/stratus_storage.rs:182-187 | One of a past block reads the history at that block and has nothing cached |
| `LatestReads.CallGetsItsHeader` | src/eth/storage/stratus_storage.rs:325-343 | A call started while no commit runs gets the header of the mined block |
| `LatestReads.FillAll` | src/eth/storage/cache.rs:154-166 | What waits to be cached is cached exactly for the keys that are missing and not being inserted by another |
| `LatestReads.AccessListIsLoaded` | src/eth/storage/stratus_storage.rs:620-634 | A loader, let run, has cached every listed key that was missing with its permanent value, and changed no entry |
| `LatestReads.CommitIsWhole` | src/eth/storage/stratus_storage.rs:262-274 | A commit that is begun, let run, has stored the block, its history and header, set lock value and mined number, and cached every touched key with its outcome |
| `LatestReads.RefusedCommitLeavesNoTrace` | src/eth/storage/stratus_storage.rs:262-274 | One the database refuses leaves the state as it was |
| `LatestState.PinnedCallsReadOneSnapshot` | src/eth/storage/resolve_pending.rs:75-92 | Snapshot isolation: a call pinned to the mined number gets the header and every account and slot as of that block, however many blocks are committed meanwhile and whether cache, latest or history answers |
| `LatestState.EvictionIsSafeIff` | src/eth/storage/cache.rs:154-166 | Evicting an entry, during a commit or not, keeps the invariant if and only if no waiting read of it predates its last change |
| `LatestState.ClearIsSafeIff` | src/eth/storage/cache.rs:69-72 | Clearing the cache keeps the invariant if and only if no waiting read of any entry predates its last change |
| `LatestState.InvThroughoutIffCovered` | src/eth/storage/stratus_storage.rs:191-206 | The invariant holds in every state of a run if and only if every eviction and clearing of the run meets its condition: the side condition of the theorems on runs is exact |
| `LatestState.LossUnderStaleFillBreaksTheCache` | src/eth/storage/cache.rs:154-166 | From every state with such a waiting read, the loss and the late insertion leave a wrong cache entry |
| `LatestState.LossInFlightBreaksCoherence` | src/eth/storage/stratus_storage.rs:191-206 | Runs from a fresh storage, one with an eviction and one with a clearing, that end with a wrong entry and no commit running |
| `LatestState.LoadedAndReadDefaultsDiffer` | src/eth/storage/stratus_storage.rs:605-618 | For an absent account the loader and the reader agree on nonce, balance and code, and are equal exactly when the account exists, the key is a slot or the address is zero |
| `LatestState.AsOfAppend` | src/eth/storage/permanent/rocks/rocks_state.rs:313-350 | A later block does not change what history says of an earlier one |
| `LatestState.RunExtends` | src/eth/storage/stratus_storage.rs:262-274 | In every run history and headers only grow and threads keep their target |
| `PendingReads.LayersGiveTheIdeal` | src/eth/storage/temporary/inmemory/transaction.rs:154-175 | The first of pending block, last finished block and permanent storage that has a key gives what all accepted transactions leave there |
| `PendingReads.TransactionsReadAllAccepted` | src/eth/storage/temporary/inmemory/transaction.rs:154-175 | Whatever is finished, committed, cached and loaded during an execution, every value it has read is the one left by all accepted transactions, if no cache entry is lost while a stale read of it waits |
| `PendingReads.ExecutionIsSerial` | src/eth/storage/temporary/inmemory/transaction.rs:77-143 | So each accepted transaction ran on the state left by those before it, and permanent storage always holds the effect of a prefix of them, all of them when nothing is pending |
| `PendingReads.SaveIsAcceptedIff` | src/eth/storage/temporary/inmemory/transaction.rs:77-98 | A save frees the worker and is merged and accepted exactly when the pending block is the one executed for |
| `PendingReads.FinishedBlockCanBeCommitted` | src/eth/storage/stratus_storage.rs:262-313 | The last finished block passes the number checks and is complete for the stored state if and only if it is not stored yet, no commit runs and no reader has the state lock |
| `PendingReads.StepKeepsInvIff` | src/eth/storage/stratus_storage.rs:167-187 | A step keeps the worker reading that state if and only if it does not find a stale cache entry; both blocks of temporary storage and permanent storage never mislead it |
| `PendingReads.InvThroughoutIffExact` | src/eth/storage/stratus_storage.rs:167-187 | In a run this holds at every point if and only if no lookup of the worker finds a stale entry |
| `PendingReads.CoherentCacheIsExact` | src/eth/storage/stratus_storage.rs:262-274 | With the invariant of the cache the worker's lookups are exact during a commit too: what the commit has yet to cache is in the finished block |
| `PendingReads.StaleCacheIsMisread` | src/eth/storage/temporary/inmemory/transaction.rs:109-143 | From every state with a stale entry of a key the pending block has not touched, finishing one block lets a transaction read it |
| `PendingReads.LossInFlightIsMisread` | src/eth/storage/stratus_storage.rs:191-197 | Runs from a fresh storage, one with an eviction and one with a clearing, in which a transaction reads a value other than the accepted one |
| `Storage.AcceptedIffNext` | src/eth/storage/stratus_storage.rs:276-313 | With genesis stored, a block is accepted exactly when it follows the mined one, is below the pending number, and the database answers the lookup and takes the batch; otherwise nothing changes |
| `Storage.RejectedBecause` | src/eth/storage/stratus_storage.rs:276-313 | The exact condition of each error; an existing block is reported only for a second block zero |
| `NumberChecks.MiningChecksAgree` | src/eth/storage/stratus_storage.rs:283-308 | The mining model accepts a number exactly when these checks do |
| `NumberChecks.CommitGuardAgrees` | src/eth/storage/stratus_storage.rs:283-308 | The latest-state model lets a commit begin exactly for a block that passes them, once the state lock is to be had |
| `Storage.SavesStayContiguous` | src/eth/storage/stratus_storage.rs:276-313 | After any sequence of calls the stored numbers are exactly 0 to mined, no stored block was replaced, and the lock holds the header of the mined block |
| `Storage.MissingGenesisWedgesTheChain` | src/eth/storage/stratus_storage.rs:284-292 | Without genesis two calls lead to a state that refuses every further call |
| `Storage.GaplessIffGenesis` | src/eth/storage/stratus_storage.rs:276-313 | Starting empty or contiguous, every sequence of calls leaves the stored numbers without gap if and only if genesis is stored |
| `Storage.WedgedStaysWedged` | src/eth/storage/stratus_storage.rs:284-308 | With blocks 0 and 1 stored and mined number 0, no sequence of calls changes anything |
| `Storage.StorageCache.InsertIfMissing` | src/eth/storage/cache.rs:154-166 | Never replaces a value |
| `Storage.StorageCache.CacheFromChanges` | src/eth/storage/cache.rs:74-93 | Whatever the order of insertion, every key touched by the block has its outcome and the others are untouched |
| `Storage.StratusStorage.constructor` | src/eth/storage/types/state_lock.rs:48-56 | A storage opened on contiguous blocks starts with a coherent empty cache and the header of the mined block in the lock |
| `Storage.StratusStorage.CommitChanges` | src/eth/storage/stratus_storage.rs:262-274 | Keeps blocks, history, lock value, mined number and cache in agreement, or on a database error changes nothing |
| `Storage.StratusStorage.SaveBlock` | src/eth/storage/stratus_storage.rs:276-313 | Refines the value-level specification of the number checks, a failed lookup included; a rejected block leaves no trace in state, history or cache |
| `Storage.StratusStorage.Read` | src/eth/storage/stratus_storage.rs:167-209 | A read answers as of its pinned or past block, or as of the mined block, wherever it is found, and caches exactly the non-pending reads of the latest state |
| `Storage.StratusStorage.ReadBlockInfo` | src/eth/storage/stratus_storage.rs:325-343 | A number gives the header of the stored block, the one after the mined block gives the pending header, and higher ones nothing |
| `Storage.StratusStorage.LoadAccessList` | src/eth/storage/stratus_storage.rs:620-634 | Adds exactly the listed keys that are missing, without changing what is cached and keeping the cache coherent |
| `Storage.ListedKeys` | src/eth/storage/stratus_storage.rs:622-629 | The flattened list has exactly the keys the access list names |
| `Mining.RunPreservesInv` | src/eth/miner/miner.rs:278-345 | One invariant over locks, numbers, finished blocks and accepted transactions is kept by every interleaving of any number of threads |
| `Mining.RunKeepsBase` | src/eth/miner/miner.rs:304-345 | In every run the chain is only appended to |
| `Mining.NumbersAgreeIffNothingLost` | src/eth/miner/miner.rs:278-301 | Whenever mine-and-commit is free: pending is mined plus one, and the chain is the initial one followed by every finished block once in mining order, if and only if no block was given up |
| `Mining.NumberConflictsOnlyAfterALoss` | src/eth/storage/stratus_storage.rs:284-308 | A commit is refused for its number if and only if an earlier block was given up |
| `Mining.LostIffACommitIsGivenUp` | src/eth/miner/miner.rs:278-283 | A block is lost in a run exactly when a failed database access, the lookup of its number or the write of its batch, is not retried |
| `Mining.LostIffDatabaseFailsOthers` | src/eth/miner/miner.rs:438-455 | By the calls of the run: a block is lost exactly when a database access fails of a thread that is not a tick of the interval miner |
| `Mining.IntervalMinerLosesNothing` | src/eth/miner/miner.rs:438-455 | However often the database fails the interval miner, whenever mine-and-commit is free pending is mined plus one and every finished block is stored in order |
| `Mining.LossStopsTheChain` | src/eth/miner/miner.rs:278-283 | After a loss no run stores a block again |
| `Mining.LossIsReachable` | src/eth/miner/miner.rs:278-283 | From every initial state some run loses a block |
| `Mining.StoredIffAccepted` | src/eth/storage/temporary/inmemory/transaction.rs:77-98 | A block stored by a run holds a transaction if and only if a save of it was accepted with that block's number and timestamp |
| `Mining.AcceptedTransactionsLandOnce` | src/eth/storage/temporary/inmemory/transaction.rs:77-98 | A transaction saved under one header only is, of all blocks stored by the run, in exactly the one with that number and timestamp, however often the miner finished blocks in between |
| `Mining.AcceptedTransactionsAreKept` | src/eth/storage/temporary/inmemory/transaction.rs:77-143 | Without a loss a saved transaction is pending, in the block being stored, or stored, with its own header in each case |
| `Mining.AttemptsAreBounded` | src/eth/executor/transaction_worker.rs:101-144 | In every interleaving a worker executes at most the allowed number of times, and once if that is zero |
| `MiningHistory.StoredBlocksReplayAccepted` | src/eth/types/block/pending_block.rs:27-29 | Every block stored by a run is the accepted transactions of its header, pushed in the order of acceptance |
| `MiningHistory.PushKeepsPlaces` | src/eth/types/block/pending_block.rs:27-29 | A new hash goes last, a known one keeps its place and nothing else moves |
| `MiningHistory.SendersAreToldTheTruth` | src/eth/executor/transaction_worker.rs:101-144 | In every run a sender told of success, or of an error while mining, has had its transaction accepted; it executes at most as often as allowed, and exactly so often when told of a mismatch |
| `MiningHistory.WritersExcludeReaders` | src/eth/storage/stratus_storage.rs:262-274 | In every run nobody reads under the state lock while a block is written |
| `MiningRuns.MiningStoresThePendingBlock` | src/eth/miner/miner.rs:278-345 | With nobody in its way, mining once, and a tick after any number of refused batches, stores the pending block and opens the next |
| `MiningRuns.SendingStoresTheTransaction` | src/eth/miner/miner.rs:215-242 | Likewise a transaction is executed once and accepted for the pending block, and with automine stored |
| `MiningRuns.OthersGetThrough` | src/eth/miner/miner.rs:95-102 | Likewise a reset comes to hold every lock, and a reader the state lock, and both get through |
| `MiningRuns.ReadersShare` | src/eth/storage/types/state_lock.rs:56-66 | A reader gets in beside any number of others |
| `Automining.AutominedBlocksHoldOne` | src/eth/miner/miner.rs:225-239 | If every transaction meets automine switched on, no block of the run has more than one, whoever else mines |
| `Mining.LocksAreTakenInOrder` | src/eth/miner/miner.rs:95-102 | On every path a wanted lock comes after all held ones in one fixed order |
| `Locks.BlockerIsAhead` | src/eth/miner/miner.rs:95-102 | Whoever stands in the way of a lock, a waiting writer included, waits only for a later one |
| `Locks.BlockedByOneThatCanStep` | src/eth/miner/miner.rs:95-102 | If all threads keep to the order, the chain of blockers from any waiting thread ends at one that waits for nothing or can have its lock |
| `Mining.NoDeadlock` | src/eth/miner/miner.rs:215-345 | In every reachable state of the mining machine with an unfinished thread some thread can step |
| `Locking.PathsAreOrdered` | src/eth/miner/miner.rs:95-345 | Every path through the miner, external mining and replicated, re-executed and fake-leader imports included, takes its locks in one order and leaves none behind |
| `Locking.PathsTake` | src/eth/miner/miner.rs:95-345 | The locks each path takes, in order: local mining under its own lock, imports without it, a reset all of them |
| `Locking.LocksExclude` | src/eth/miner/miner.rs:95-345 | In every run no two threads have the same lock, except to read the state, which then nobody writes |
| `Locking.EveryJobGetsThrough` | src/eth/miner/miner.rs:215-345 | Every job can be started when nobody is at work, gets to its end, and has no lock there |
| `Locking.ReadersShare` | src/eth/storage/types/state_lock.rs:56-66 | Two readers have the state lock at once |
| `Locking.NoDeadlock` | src/eth/miner/miner.rs:247-345 | For any number of threads on any of these paths, with any outcomes and retries, some thread can step while one is not through |
| `Worker.SaveExecution` | src/eth/storage/temporary/inmemory/transaction.rs:77-98 | A save is accepted only with the pending header of that moment, and a mismatch is told from other errors |
| `Worker.ExecuteLocalTransactionAttempts` | src/eth/executor/transaction_worker.rs:101-144 | Whatever headers are read and found at the save: at most the allowed attempts, all but the last mismatched, success exactly if the last was accepted, with the header it was saved under, and a mismatch reported only when attempts are used up |
| `Worker.RunTasks` | src/eth/executor/transaction_worker.rs:51-65 | Every task gets its own answer in order, a panic costs only its own task the answer, and no task runs on an EVM an earlier task panicked on |
| `Blocks.PendingBlock.PushTransaction` | src/eth/types/block/pending_block.rs:27-29 | Hashes stay distinct; a known hash keeps its place, a new one goes last, nothing else moves |
| `Blocks.Block.FromPending` | src/eth/types/block/block.rs:105-125 | Transactions are the executions in order with their index and first log index, gas is the sum of theirs, size their count |
| `Blocks.Block.CreateLogMessages` | src/eth/types/block/block.rs:71-86 | Refines the concatenation of the messages of the transactions |
| `Blocks.LogsAreNumbered` | src/eth/types/block/block.rs:71-86 | The messages of an assembled block are as many as its logs and numbered 0, 1, 2, ... without gap or repeat |
| `Blocks.MessageOrigin` | src/eth/types/block/block.rs:71-86 | Every log of every transaction has its message at the place given by all logs before it, with its transaction's hash and index and the header's hash and number |
| `Blocks.Block.ApplyExternal` | src/eth/types/block/block.rs:95-102 | Succeeds exactly when all timestamps agree, and then every transaction carries the header's new hash and nothing else changed; otherwise the changed ones are those before the first odd transaction, or none when the header is odd |
| `Blocks.ExternalBlockKeepsNumbers` | src/eth/types/block/block.rs:95-102 | Taking an external hash keeps a block one that was assembled from its executions, log numbers included |
| `Roles.Node.constructor` | src/globals.rs:357-363 | A node starts with role, importer and miner in agreement |
| `Roles.InitialIsInv` | src/globals.rs:357-363 | Every initial state satisfies the invariant of the theorems on runs |
| `Roles.Node.ReachStopBlock` | src/eth/follower/importer/importers/mod.rs:45-49 | An importer past its stop block sets the shutdown flag and stays installed |
| `Roles.Node.StartIntervalMining` | src/eth/miner/miner.rs:122-147 | A running interval miner is left as it is; otherwise it runs, unpaused |
| `Roles.Node.SwitchToExternalMode` | src/eth/miner/miner.rs:150-158 | No interval miner is left running |
| `Roles.Node.ChangeMinerMode` | src/eth/rpc/server.rs:746-794 | Refines the value-level specification, errors in order |
| `Roles.Node.ShutdownImporter` | src/eth/rpc/server.rs:703-729 | Refines the value-level specification; the importer is gone even when its runtime fails to stop |
| `Roles.Node.InitImporter` | src/eth/follower/importer/config.rs:157-200 | Refines the value-level specification; a failure leaves importer, runtime and shutdown flag as they were |
| `Roles.Node.ChangeToLeader` | src/eth/rpc/server.rs:561-610 | Refines the value-level specification, for all flags met at the points where it waits |
| `Roles.Node.ChangeToFollower` | src/eth/rpc/server.rs:612-668 | Refines the value-level specification, for all flags and pending counts met at the points where it waits |
| `Roles.PromotionSucceedsIff` | src/eth/rpc/server.rs:561-610 | The exact condition of success, after which the node leads, mines every second, has no importer and a cleared cache; no other outcome changes the role |
| `Roles.PromotionFailsIff` | src/eth/rpc/server.rs:561-610 | The exact condition of each error |
| `Roles.DemotionFailsIff` | src/eth/rpc/server.rs:612-668 | The exact condition of each error of a leader |
| `Roles.MinerChangeFailsIff` | src/eth/rpc/server.rs:746-794 | The exact condition of each answer; only a change that is made changes something |
| `Roles.MinerChangeWorks` | src/eth/miner/miner.rs:122-158 | A change that is made leaves the miner unpaused in the mode asked for, with that interval, except that a running interval miner goes on as it is |
| `Roles.ImporterCallFailsIff` | src/eth/follower/importer/config.rs:157-200 | The exact condition of each error of stopping and starting the importer, and what they do otherwise |
| `Roles.DemotionSucceedsIff` | src/eth/rpc/server.rs:612-668 | The exact condition of success for a leader, after which it follows with a running importer, an external miner and a cleared cache; any other outcome leaves a leader |
| `Roles.DemotionKeepsInvIff` | src/eth/rpc/server.rs:652-663 | A demotion keeps role, importer and miner in agreement if and only if it is not that of a fake leader which passes all earlier checks and fails at the importer, by its parameters or, with the old importer ended, by its start |
| `Roles.RolesAgreeIff` | src/eth/rpc/server.rs:559-668 | In every run of role changes, failed ones included, toggles and importers ending by themselves: a leader has no importer, runtime or running flag, others have an external miner, and importers go only with external miners, in all states if and only if no such demotion is made |
| `Roles.RolesAgreeWithoutFakeLeader` | src/eth/follower/importer/config.rs:85-113 | A node not started as a fake leader satisfies this in every run |
| `Roles.FakeLeaderCanBreakRoles` | src/eth/rpc/server.rs:652-663 | A run from an initial state for each of the two ways to fail |
| `Roles.FailedImporterLeavesIdleLeader` | src/eth/rpc/server.rs:652-663 | A leader whose demotion passes every check and fails at the importer leads without a miner, and a promotion answers that nothing had to change |
| `Roles.LeaderStopsMiningIff` | src/eth/rpc/server.rs:612-668 | A mining leader is left leading without a miner if and only if its demotion is authorized, alone, finds transactions off, nothing pending and the miner paused, and has unreadable parameters or an importer that does not start |
| `Polling.HasNoPendingTransactions` | utils/deploy/deploy.py:224-259 | True if and only if the required number of zero samples comes in a row within the attempts, the last ones read being such a row; with nothing required, if and only if some sample is not zero |
| `Polling.BlocksSynced` | utils/deploy/deploy.py:263-318 | True if and only if after some sample the leader's number stays the same and the follower reports it the required times in a row; with nothing required, at the first sample |
| `Polling.WindowIsCounted` | utils/deploy/deploy.py:270-311 | The loop never counts less than the two have been in step |
| `Handover.RunKeepsInv` | utils/deploy/deploy.py:400-578 | One invariant over both nodes, all accepted transactions and the place of the script is kept by every interleaving with clients, miners, importers, lost replies and aborts |
| `Handover.NeverTwoLeaders` | utils/deploy/deploy.py:516-570 | No reachable state has two leaders |
| `Handover.PromotionLosesNothing` | utils/deploy/deploy.py:476-570 | When the follower becomes leader it holds exactly the old leader's blocks, which hold in order every transaction ever accepted, and nothing is pending anywhere |
| `Handover.NothingIsEverLost` | utils/deploy/deploy.py:400-578 | In every reachable state one node has all accepted transactions in order, in its blocks or pending, and the other a prefix of its blocks |
| `Handover.EarlyReturnRestores` | utils/deploy/deploy.py:419-514 | Every plain return before the change to follower leaves the leader leading, and transactions and miner enabled if they were at the start |
| `HandoverRuns.BackingOutRestores` | utils/deploy/deploy.py:419-514 | From every reachable state, a refused question and the last failing sample of a wait before the change to follower lead, by two or three more requests whatever they meet, to that return |
| `HandoverRuns.AbortsIff` | utils/deploy/deploy.py:140-170 | A request ends the script in an error exactly by the last attempt of a state check, a leader found, or a role change that is not made |
| `HandoverRuns.ChecksAreCounted` | utils/deploy/deploy.py:140-170 | A node that is not in the state expected is asked exactly as often as configured |
| `HandoverRuns.PendingPollPassesIff` | utils/deploy/deploy.py:435-452 | The wait for pending transactions goes on exactly when enough samples in a row saw none, and back otherwise |
| `HandoverRuns.SyncPollPassesIff` | utils/deploy/deploy.py:476-493 | The wait for the follower goes on exactly when it reported the leader's unchanged block often enough in a row, and back otherwise |
| `HandoverRuns.SyncSample` | utils/deploy/deploy.py:263-311 | A sample is the leader's block at the first request and the follower's at the second, whatever happens between |
| `HandoverRuns.LostRepliesAreHarmless` | utils/deploy/deploy.py:49-70 | A toggle, question or sample whose reply was lost has the same effect when repeated |
| `HandoverRuns.LostRoleChangeAborts` | utils/deploy/deploy.py:321-342 | A role change that was made and whose reply was lost ends the script in an error when repeated, with the role changed |
| `HandoverRuns.EndsAreFinal` | utils/deploy/deploy.py:400-578 | After any end roles and flags stay as the script left them in every run |
| `HandoverRuns.ClientsAreServedAgain` | utils/deploy/deploy.py:419-514 | After an early return the leader accepts transactions if it did at the start |
| `HandoverRuns.ClientsAreServedByTheNewLeader` | utils/deploy/deploy.py:555-578 | After a handover the new leader accepts and mines, and the old one accepts nothing |
| `HandoverRuns.FollowerCanCatchUp` | utils/deploy/deploy.py:476-493 | A node with a running importer, however far behind, can come to hold exactly the other's blocks |
| `Handover.LateReturnLeavesNoLeader` | utils/deploy/deploy.py:547-553 | The plain return after it leaves two followers that accept nothing |
| `Handover.FinishedHandsOver` | utils/deploy/deploy.py:555-578 | A script that reaches its end has a mining new leader, a following old one, and transactions on at both |
| `HandoverRuns.HandoverCanFinish` | utils/deploy/deploy.py:400-578 | From every initial state with a mining leader and an importing follower, however far behind, some run reaches the end |
| `HandoverRuns.LastRefusalLeavesNoLeader` | utils/deploy/deploy.py:547-553 | From each of these initial states some run ends at that return, with two followers that accept nothing |
| `Base64.DecodeEncode` | src/eth/rpc/pagination.rs:151-151 | Decoding inverts encoding on every byte string |
| `Base64.DecodeIsCanonical` | src/eth/rpc/pagination.rs:197-197 | Only encodings decode: padding, length and unused bits are all checked |
| `Base64.EncodedLength` | src/eth/rpc/pagination.rs:146-149 | Three bytes take four characters, rounded up |
| `Base64.DigitsAreSixBits` | src/eth/rpc/pagination.rs:146-151 | Each group of three bytes is written as the four six-bit digits of its 24-bit number, a shorter one filled with zero bits and padded, as section 4 of RFC 4648 has it |
| `Utf8.ValidIffEncoded` | src/eth/rpc/pagination.rs:213-218 | The check by byte ranges accepts exactly the encodings of sequences of code points without surrogates |
| `Envelopes.EnvelopeRoundTrip` | src/eth/rpc/pagination.rs:107-116 | What the leader writes starts with the marker and is read back unchanged, for every 64-bit total and base64 chunk |
| `Envelopes.ParsedIsWritten` | src/eth/rpc/pagination.rs:107-116 | And a reader of this layout reads nothing but what the leader writes |
| `Envelopes.WireText` | src/eth/rpc/pagination.rs:17-21 | The text of an envelope, byte for byte |
| `Envelopes.LayoutReaderIsOne` | src/eth/rpc/pagination.rs:107-116 | Reading exactly the leader's layout meets what is asked of a JSON library here: it reads what the leader writes, of the texts that start with the marker only objects, and drops nothing but space around a value |
| `Envelopes.EnvelopeOverhead` | src/eth/rpc/pagination.rs:53-64 | An envelope is at most 63 bytes longer than its chunk |
| `JsonText.ScanDeeper` | src/eth/rpc/pagination.rs:112-116 | A stretch of JSON that stays inside an object does so at every greater depth, and ends that much deeper |
| `JsonValues.ObjectsPass` | src/eth/rpc/pagination.rs:112-116 | Every object text of the JSON grammar, nested to any depth and with any escapes and space, has the outline that is asked of what a JSON library reads |
| `Envelopes.MarkerNeedsOut` | src/eth/rpc/pagination.rs:107-110 | In an unbroken JSON text the marker follows only where a token has ended |
| `Pagination.ChunkFitsBudget` | src/eth/rpc/pagination.rs:134-151 | The encoded chunk is never longer than the limit minus the margin, and not empty inside the response if there is room for one group |
| `Pagination.AnswerFitsLimit` | src/eth/rpc/pagination.rs:126-167 | Every answer to a paginating follower leaves at least 449 bytes of the limit for the JSON-RPC wrapper |
| `Pagination.PlainClientGetsAll` | src/eth/rpc/pagination.rs:129-131 | A client that does not paginate gets the whole response, whatever its size and the limit |
| `Pagination.PaginatingClientGets` | src/eth/rpc/pagination.rs:133-166 | A client that does gets an error exactly for an offset beyond an oversized response, a response that fits as it is, and otherwise its size and the base64 of the part at the offset, as long as three quarters of the budget or up to the end |
| `Pagination.Reassembler.Push` | src/eth/rpc/pagination.rs:192-205 | A refused chunk changes nothing, an accepted one is appended decoded, and one that does not complete the response makes it longer yet shorter than its total |
| `Pagination.Reassembler.Finish` | src/eth/rpc/pagination.rs:213-218 | Succeeds only with exactly the total number of bytes and valid UTF-8 |
| `Pagination.PushesAccumulate` | src/eth/rpc/pagination.rs:192-205 | For every sequence of envelopes the buffer is the concatenation of the accepted chunks, and fewer than total pushes can be accepted before the completing one |
| `Pagination.Fetch` | src/eth/follower/importer/importers/blockchain_client.rs:204-263 | Ends against every peer and with every JSON library, within as many requests as the cap has bytes, and refines the specification of what is fetched, the raw JSON value of the assembled text included |
| `Pagination.Assemble` | src/eth/follower/importer/importers/blockchain_client.rs:238-260 | The loop makes at most as many requests as the announced total has bytes |
| `Pagination.RequestPiece` | src/eth/follower/importer/importers/blockchain_client.rs:246-257 | A later answer counts only if it is a readable envelope; a failed request, a null or other answer and an unreadable envelope have their own errors |
| `Pagination.AcceptedIffPiecesMatch` | src/eth/follower/importer/importers/blockchain_client.rs:224-263 | Against any peer and whatever layouts are read as envelopes, a value is accepted if and only if it is the raw JSON value of a text within the cap that is valid UTF-8 and of which each piece sent is the part at the offset asked for and announces its size |
| `Pagination.PaginatedResponseArrives` | src/eth/rpc/pagination.rs:126-167 | Every oversized response arrives byte for byte with every limit that has room for one group; a smaller limit, a size above the cap and a text that is no JSON value end in their own errors |
| `Pagination.LookalikeNeverArrives` | src/eth/rpc/pagination.rs:107-110 | A one-message response that starts with the marker never arrives, whatever layouts the JSON library accepts |
| `Pagination.OneMessageArrivesIff` | src/eth/follower/importer/importers/blockchain_client.rs:204-226 | A response that fits one message arrives if and only if it neither starts with the marker nor is null, and null arrives as no response |
| `Pagination.NoPiecesOfItself` | src/eth/rpc/pagination.rs:107-110 | No JSON object that starts with the marker, with any space around it, is made of copies of a piece shorter than the object |
| `Pagination.ResponseArrivesIff` | src/eth/rpc/pagination.rs:126-167 | The exact condition on response and limit under which the follower gets the response, for every JSON library that reads what the leader writes |
| `Pagination.StartedLeaderGetsThroughIff` | src/eth/rpc/pagination.rs:60-64 | With a limit the leader starts with, only null, the cap and the marker can stop a response |
| `Pagination.PieceNeedNotBeText` | src/eth/rpc/pagination.rs:23-28 | A valid text can be cut so that neither part is one |
| `Timed.TimingWindow` | crates/stratus_metrics/macros/src/timed_attribute.rs:301-356 | A body is accepted exactly when no marker has arguments, is repeated or lacks its expression, and start is before end; the window names each marker, and an error is the first fault |
| `Timed.MeaningIsPreserved` | crates/stratus_metrics/macros/src/timed_attribute.rs:190-291 | For every body and every behaviour of its statements, with metrics compiled in or out, the rewritten function runs exactly the non-marker statements once in order and ends alike: falling off the end, early return or panic; with metrics, provided a duration expression that is reached only gives a value |
| `Timed.ExecDoesOperations` | crates/stratus_metrics/macros/src/timed_attribute.rs:190-291 | What a body has done is its operations in order, each once, and all of them if it got to its end |
| `Timed.MeaningIsPreservedIff` | crates/stratus_metrics/macros/src/timed_attribute.rs:221-230 | A duration expression leaves the meaning of every body alone if and only if it gives a value and changes nothing in every world |
| `Timed.RecordedDuration` | crates/stratus_metrics/macros/src/timed_attribute.rs:239-276 | The recorded duration is the override if its marker is reached, otherwise end or now minus start or entry, as the original body defines these times; nothing is recorded on a panic or without metrics |
| `Timed.DurationIsNotNegative` | crates/stratus_metrics/macros/src/timed_attribute.rs:239-260 | With a monotone clock a measured duration is never negative, whichever markers are reached |
| `Timed.OperateIsExec` | crates/stratus_metrics/macros/src/timed_attribute.rs:209-238 | From any statement on, the rewritten statements do what the original ones do |
| `Timed.OperateMarks` | crates/stratus_metrics/macros/src/timed_attribute.rs:209-238 | The variables of the instrumentation end with the times of exactly the markers reached |
| `CountingSemaphore.RunKeepsInv` | src/utils.rs:60-85 | Every interleaving keeps threads in one place each, permits conserved and no wakeup lost |
| `CountingSemaphore.PermitsAreConserved` | src/utils.rs:60-85 | Free permits and holders add up to the initial count in every interleaving |
| `CountingSemaphore.NoWakeupIsLost` | src/utils.rs:60-85 | While a thread sleeps there are at least as many woken waiters on their way, or a notification due, as free permits, despite barging and spurious wakeups |
| `CountingSemaphore.SomeThreadCanStep` | src/utils.rs:60-85 | With at least one permit in all, some thread that is awake can always step |
| `CountingSemaphore.NobodyVanishes` | src/utils.rs:60-85 | A thread appears only by acquiring and leaves only at the end of a release |
| `CountingSemaphore.AcquireTakesAPermit` | src/utils.rs:60-85 | A thread that acquires with the mutex free gets a permit if there is one, and sleeps if not |
| `CountingSemaphore.WokenTakesAPermit` | src/utils.rs:60-85 | So does a thread that was woken |
| `CountingSemaphore.ReleaseWakesOne` | src/utils.rs:60-85 | A release returns its permit and wakes one sleeper, whichever, if there is one |
| `CountingSemaphore.SpuriousWakeupIsHarmless` | src/utils.rs:60-85 | A thread woken without a permit goes back to sleep and nothing has changed |
| `TransferEvents.TransactionToEvents` | src/ledger/events.rs:220-299 | One event for each account in a transfer and no other, each with what its account saw and the call it comes from; no result exactly when there is a transfer and fewer than four bytes of call data |
| `TransferEvents.TransferRoundTrip` | src/ledger/events.rs:224-247 | The log an ERC-20 contract writes for a transfer is read as that transfer, for every 20-byte address and 32-byte amount |
| `TransferEvents.AddressIsTheTail` | src/eth/types/primitives/address.rs:110-114 | Whatever the first 12 bytes of a topic are, its address is the last 20 |
| `TransferEvents.DecodedIff` | src/ledger/events.rs:224-247 | A log with another first topic, a missing topic or data of another length is no transfer, and any other is one |
| `TransferEvents.TransfersKeepLogOrder` | src/ledger/events.rs:224-247 | The transfers of a list of logs are those of its transfer logs, one each, in log order |
| `TransferEvents.EntriesOf` | src/ledger/events.rs:280-294 | The entries of an account are a filtering of the transfers |
| `TransferEvents.InvolvedIn` | src/ledger/events.rs:249-254 | The accounts are exactly the senders and receivers |
| `TransferEvents.EntriesKeepLogOrder` | src/ledger/events.rs:280-294 | Entries are all transfers of the account, in log order, a debit exactly for the sender |
| `TransferEvents.TransfersAreConserved` | src/ledger/events.rs:220-299 | However transfers are weighed, debits over all events weigh as much as all transfers, and credits as much as those between distinct parties |
| `TransferEvents.EachTransferOnce` | src/ledger/events.rs:280-294 | Each transfer is debited as often as it is logged, and credited as often, or never when sender and receiver are one |
| `TransferEvents.DebitsMinusCredits` | src/ledger/events.rs:220-299 | Per token, debits minus credits is the amount accounts sent to themselves |

## Left out

- The EVM, transaction validation, RPC methods other than the ones above, RocksDB itself and the configuration: they hold no protocol of their own or are foreign code.
- Fetchers and importer workers: the model has what they read and write as parameters and steps.
- What the importers do to the block numbers: one importer runs at a time and no local miner beside it; their locking is in `Locking`.
- The mining, latest-state, semaphore and handover models are on values, as step relations, because their sources are concurrent; update in place is part of the steps, aliasing is not.
- What a reset does once it holds every lock: only its locking is modelled.
- The health checks and the log file of the deploy script: a failed health check aborts it, which it may do at any request here.
- Block timestamps changed by the development-only call that sets the next timestamp.
- Reads of the two ignored addresses, which permanent storage always answers with nothing: the state they run on has no entry for these.
- `Envelopes.EnvelopeRoundTrip`: is about a reader of the leader's layout; the results on fetching hold for every JSON library that reads this layout, of the texts that start with the marker only objects.
- `Pagination.AcceptedIffPiecesMatch`: the raw JSON value of a text is a parameter; the results on the marker ask of it that only space around the value is dropped.
- `PendingReads.TransactionsReadAllAccepted`: is about the transactions of the serial worker, with no finished block given up and no importer; an execution may end with any changes to what it has read.
- `Handover.PromotionLosesNothing`: requests, mined blocks and imported blocks are atomic, and nobody but the script changes roles or flags; a fake leader is not one of the two nodes.
- `Roles.RolesAgreeIff`: the single-step admin calls (importer start and stop, miner mode) are not calls of a run.
- `Timed.MeaningIsPreserved`: metric labels are not part of the model, evaluating a duration expression takes no time, and closure and async block have one meaning.
- `Timed.RecordedDuration`: is about duration expressions that only give a value.
- `Blocks.Block.FromPending`: gas is unbounded, and the hash of a block number and the transaction root are parameters.
- `TransferEvents.TransactionToEvents`: publication identifier and time, which are random and the clock, are not part of an event.
- `Worker.RunTasks`: a shutdown between tasks only cuts the list of tasks short.
