# JMDN-FastSync, modelled and proved in Dafny

FastSync brings a lagging node up to date: it finds what differs between two nodes, delivers what is missing,
logs it, and replays it into account balances. This project models the seven parts of the system that carry its
correctness and proves what they promise over all inputs, all runs and all failures.

| part | modules | form |
|---|---|---|
| account dispatcher (worker pool, bounded channel, retries, dead letters, flow-control gate, `done` latch) | `Dispatcher`, `DispatcherSafety`, `DispatcherTheorems`, `DispatcherGate`, `DispatcherProgress`, `DispatcherWorkers`, `DispatcherWitness` | step machine; one step per atomic operation, channel operation or lock region; theorems hold for every interleaving |
| account diff stage that feeds it | `AccountDiff`, `AccountDiffProof`, `AccountDiffSession`, `AccountDiffParents`, `AccountDiffCapacity`, `AccountDiffOvershoot` | joint step machine of diff parents and dispatcher |
| LRU header cache and lookups through it | `LruSpec`, `LruCache`, `HeaderLookup` | heap class with a doubly linked list, proved against a most-recent-first sequence |
| Merkle bisection and leaf feed | `Bisection`, `BisectionProof`, `LeafFeed` | loops proved against recursive specifications |
| write-ahead log and its asynchronous buffer | `WalSpec`, `WalProof`, `WalFaults`, `WalClass`, `AsyncBuffer`, `AsyncBufferProof` | class proved against a value model, which refines a numbered list of events; step machine for the buffers |
| reconciliation ledger | `Ledger`, `Reconcile` | replay loop and phased commit as methods, balances as sums |
| reorder stages, batch builders, PoTS index and tags | `Runs`, `DataReorder`, `ChunkReorder`, `Tags`, `DataBatches`, `HeaderBatches`, `HeaderDivision`, `PotsIndex`, `PotsClass`, `PotsProof`, `PotsFaults`, `PotsTags` | loops and classes proved against sequence-valued specifications |

`Options` and `Sums` hold the option type and totals over sequences.

Network calls, disk and database outcomes, completion orders and cancellation are parameters or nondeterministic
steps: a theorem that quantifies over them holds whatever they do. `sort.Slice` appears as a
parameter that is a sorted permutation of the input. `TreeDiff` has the contract that it returns non-empty ranges
inside the compared one that cover every differing leaf. `Log.Write` accepts only the next index.

`dafny verify dfyconfig.toml` checks everything.

## Where the code and its comments disagree

The model follows the code. Each spot has a concrete failing run and the condition under which the promise holds.

- A failed `OpenStream` skips the decrement of the buffer count (`run.go:117-131`). The count then exceeds the
  channel's content by exactly the sizes of the pages whose open failed (`DispatcherGate.DrainedCount`), and a producer
  can sleep for ever on an empty dispatcher exactly when that excess reaches the resume threshold (`SleeperIff`). A resume
  threshold of 0 is the case without any failure.
- "The buffer always has capacity" for a re-queue (`run.go:240-241`) is false: all workers can block on a full channel
  exactly when pages are retried at all (`StuckIff`, `DeadlockIsPermanent`). It takes at least capacity plus workers pages
  in flight (`StuckNeedsOverload`), and that number suffices (`RequeueDeadlock`).
- The capacity formula allows one page per diff parent (`account_dispatcher.go:31-36`), but a parent enqueues all full
  pages of its batch after one gate pass. Without re-queues and cancellation an enqueue can block exactly when the capacity
  is below the full pages under the pause threshold plus four per parent (`BlocksIff`). With the formula's capacity and
  the page size of 3000 that is so exactly from eight parents on, whatever the pause threshold (`FormulaBlocksIff`),
  the program's own 30 parents and 97 pages included (`DefaultCanBlock`).
- The cancel watcher broadcasts without `pauseMu`, so a producer between its decision and its `Wait` misses the wake-up
  (`CancelWakeMissed`); `CancelledSleeper` shows this is exactly how a watcher gets lost.
- `CloseInput` on an idle dispatcher is safe exactly when no enqueue is between its closed-check and its increment
  (`CloseInputSafeIff`).
- Children look at the first 10 × 1000 accounts of a batch only: a batch is searched completely exactly when the client
  holds all its accounts beyond them (`ChildrenCompleteIff`).
- A cancelled session can report a finished diff with batches unread (`CancelledSessionLooksFinished`); what such a
  session misses is exactly what the unread batches hold (`FinishedSessionMisses`, `FinishedSessionCompleteIff`).
- A sequence number is taken before serialization can fail. After that no run of operations and failures, however
  long, makes the log accept the counter's next number (`SerializationFailureUnfits`, `FaultIsPermanent`); a failed flush
  has this effect unless it wrote nothing or everything (`FlushFitIff`). A crash between `Log.Write` and `saveLSN`
  leaves a log whose next write is refused (`CrashBeforeSave`); a restart is harmless exactly when the saved counter is
  the log's last index (`ReopenFitIff`). `ReplayEvents` fails on a log that never held anything (`ReplayAgrees`).
- The creator of an asynchronous buffer ignores the result of its first push, so its event or its checkpoint can vanish
  (`CreatorPushCanBeLost`); nothing else a caller pushed can (`ReturnedIsAcceptedOrLost`).
- "A non-nil error always means the DB was NOT mutated" (`reconsillation.go:127`) is false after phase 1.5
  (`FailedRunCanAddAccount`); `FailedRunUntouchedIff` is the exact condition.
- Range arithmetic wraps at the largest 64-bit number: `buildDataBatches` and `ReadByRange` then never end
  (`InnerLoopEndsIff`, `RangeScanEndsIff`); the index of `DivideTags` comes back into the range, after a last piece that is
  reversed and so loses its blocks unless it ends at 2 to the 64 (`LastPieceReversed`, `DivideExactIff`); and `buildBatches` loses blocks or
  exceeds its limit exactly when a fill plus a range's size reaches 2 to the 64 (`BuildPartitionsIff`,
  `WholeSpaceIsDropped`). A reversed range is counted backwards (`ReversedRangeBreaksLimit`);
  sizes are counted right exactly when no range is reversed and no count overflows (`CountedRightIff`).
- A chunk whose encode result is dropped on cancellation is missing without an error
  (`DroppedChunkGoesUnreported`, `SuccessIsCompleteIff`).
- A PoTS write whose flush fails is made durable by the next write but never indexed (`FailedFlushDiverges`); index and
  replay agree exactly when no call failed after appending a block (`HistoryAgreesIff`). Two writers that reach the index
  in the other order than the log make them differ too (`SwappedWritersDiverge`).
- `Read` with limit 0 returns nothing at every offset (`PageIsSlice`).

## Model

| member | source | states |
|---|---|---|
| `Dispatcher.New` | core/protocol/router/helper/accounts/dispatcher/account_dispatcher.go:26-46 | succeeds exactly on valid settings; the channel capacity is the least number of pages that holds the pause threshold plus one page per diff parent, the resume threshold is the given percentage of the pause threshold rounded down, the rest is as given |
| `DispatcherSafety.StepKeepsInflight` | core/protocol/router/helper/accounts/dispatcher/run.go:207-257 | every step of every goroutine keeps inflight equal to the unfinished pages plus producers between increment and send or withdrawal |
| `DispatcherSafety.StepKeepsBuffer` | core/protocol/router/helper/accounts/dispatcher/run.go:114-163 | every step keeps the buffer count equal to the channel's nonces, corrected by sends not yet added and receives not yet subtracted, plus the pages whose stream open failed |
| `DispatcherSafety.StepKeepsBalanced` | core/protocol/router/helper/accounts/dispatcher/run.go:100-258 | every step keeps any content measure of the admitted pages equal to that of delivered, dead, queued and held ones |
| `DispatcherSafety.StepKeepsNumbered` | core/protocol/router/helper/accounts/dispatcher/run.go:164-167 | every step keeps: each number from 1 to the sequence counter is on exactly one page, and no other number on any |
| `DispatcherSafety.StepKeepsAttempts` | core/protocol/router/helper/accounts/dispatcher/run.go:233-258 | every step keeps the attempts of a page bounded by its retries plus one and its retries by the maximum |
| `DispatcherSafety.StepKeepsLatch` | core/protocol/router/helper/accounts/dispatcher/account_dispatcher.go:151-194 | every step keeps: after a clean close, `done` implies nothing in flight |
| `DispatcherSafety.ReachableInv` | core/protocol/router/helper/accounts/dispatcher/run.go:100-258 | all of these hold in every reachable state of every interleaving |
| `DispatcherTheorems.PagesConserved` | core/protocol/router/helper/accounts/dispatcher/run.go:100-258 | in every reachable state the admitted pages, and their nonces, are exactly delivered, dead-lettered, in the channel or in a worker's hands, as multisets and in number |
| `DispatcherTheorems.ZeroInflight` | core/protocol/router/helper/accounts/dispatcher/account_dispatcher.go:181-194 | inflight at zero means nothing is unfinished |
| `DispatcherTheorems.DoneIsComplete` | core/protocol/router/helper/accounts/dispatcher/account_dispatcher.go:181-194 | if no enqueue overlapped CloseInput, `done` means delivered plus dead is everything admitted |
| `DispatcherTheorems.CleanCloseNeverStrands` | core/protocol/router/helper/accounts/dispatcher/account_dispatcher.go:144-157 | after a CloseInput that overlaps no enqueue, no continuation closes `done` with a page in flight |
| `DispatcherTheorems.CloseInputSafeIff` | core/protocol/router/helper/accounts/dispatcher/account_dispatcher.go:112-157 | on an idle dispatcher CloseInput is safe for every continuation exactly when no enqueue sits between its check and its increment |
| `DispatcherTheorems.DeliveredNumbersDistinct` | core/protocol/router/helper/accounts/dispatcher/run.go:158-218 | delivered pages carry different numbers from 1 to the sequence counter, after at most the maximal retries plus one attempts |
| `DispatcherGate.StepKeepsGate` | core/protocol/router/helper/accounts/dispatcher/account_dispatcher.go:65-98 | every step keeps the gate's lock discipline, resume and watcher invariants |
| `DispatcherGate.NoLostResume` | core/protocol/router/helper/accounts/dispatcher/account_dispatcher.go:65-98 | while a producer sleeps, the count is at or above the resume threshold or a worker is on its way to the broadcast |
| `DispatcherGate.DrainedCount` | core/protocol/router/helper/accounts/dispatcher/run.go:114-163 | on a drained dispatcher the buffer count is the summed size of the pages whose stream open failed |
| `DispatcherGate.DrainedWakesAll` | core/protocol/router/helper/accounts/dispatcher/account_dispatcher.go:161-179 | an empty dispatcher leaves nobody asleep while that sum is below the resume threshold (SleeperIff has both directions) |
| `DispatcherGate.CancelledSleeper` | core/protocol/router/helper/accounts/dispatcher/account_dispatcher.go:73-98 | a sleeper has its watcher exactly when no watcher of its fired between the decision to sleep and the wait |
| `DispatcherGate.IdleLeavesLockFree` | core/protocol/router/helper/accounts/dispatcher/account_dispatcher.go:87-95 | with no producer inside the gate its lock is free |
| `DispatcherProgress.WorkerStepDecreases` | core/protocol/router/helper/accounts/dispatcher/run.go:108-258 | every worker step strictly decreases the remaining attempts and work of all live pages |
| `DispatcherProgress.WorkIsBounded` | core/protocol/router/helper/accounts/dispatcher/run.go:233-258 | in any run the workers take at most a fixed number of steps per admitted page |
| `DispatcherProgress.StuckNeedsOverload` | core/protocol/router/helper/accounts/dispatcher/run.go:238-251 | all workers blocked re-queuing on a full channel needs at least capacity plus workers pages in flight (RequeueDeadlock attains that number) |
| `DispatcherProgress.ClosedDispatcherMoves` | core/protocol/router/helper/accounts/dispatcher/run.go:100-142 | with the input closed, all callers gone, no cancellation and a smaller load, some worker can always move until `done` closes |
| `DispatcherProgress.DrainEndsInDone` | core/protocol/router/helper/accounts/dispatcher/run.go:100-258 | from such a state every run of worker steps is bounded by the remaining work; one that cannot be continued has closed `done` and, after a clean close, has ended every worker |
| `DispatcherProgress.StuckNeedsRetries` | core/protocol/router/helper/accounts/dispatcher/run.go:238-251 | a worker re-queues only under a configuration with retries |
| `DispatcherWorkers.DeadLettersAreSpent` | core/protocol/router/helper/accounts/dispatcher/run.go:233-258 | in every reachable uncancelled state each dead letter was taken maxRetries + 1 times: no page is given up early |
| `DispatcherWorkers.QueueIsFifo` | core/protocol/router/helper/accounts/dispatcher/run.go:108-115 | in a run without re-queues the channel holds the latest admitted pages in order, so workers take pages in the order of their enqueues |
| `DispatcherWorkers.FailedSendNeedsReopen` | core/protocol/router/helper/accounts/dispatcher/run.go:116-218 | after a failed send no run lets the worker use its stream again before it has opened another one |
| `DispatcherWorkers.HealthyStreamIsKept` | core/protocol/router/helper/accounts/dispatcher/run.go:116-218 | as long as no send of it fails a worker keeps its stream and opens no other |
| `DispatcherWorkers.BroadcastsWakeAll` | core/protocol/router/helper/accounts/dispatcher/account_dispatcher.go:79-95 | a resume, CloseInput and a watcher each wake every sleeper |
| `DispatcherWorkers.CancelledGateRefuses` | core/protocol/router/helper/accounts/dispatcher/account_dispatcher.go:65-98 | whoever is inside the gate once the session is cancelled never gets a go-ahead, in any run |
| `DispatcherWitness.OneOpenFailure` | core/protocol/router/helper/accounts/dispatcher/run.go:117-131 | for every configuration and every n at or above the resume threshold, one failed stream open leaves a count of n on an empty dispatcher |
| `DispatcherWitness.SleeperIff` | core/protocol/router/helper/accounts/dispatcher/account_dispatcher.go:65-98 | for every configuration and every n: an uncancelled empty dispatcher with failed opens of n nonces and a producer asleep can be reached exactly when n is at least the resume threshold (n = 0 is the threshold of 0 without any failure) |
| `DispatcherWitness.StuckIff` | core/protocol/router/helper/accounts/dispatcher/run.go:238-251 | all workers can be stuck re-queuing on a full channel, uncancelled, exactly when the configuration has retries |
| `DispatcherWitness.CancelWakeMissed` | core/protocol/router/helper/accounts/dispatcher/account_dispatcher.go:79-95 | for every configuration a cancellation broadcast can be missed, leaving a sleeper with no watcher |
| `DispatcherWitness.RequeueDeadlock` | core/protocol/router/helper/accounts/dispatcher/run.go:238-251 | for every configuration with retries such a state is reached with exactly capacity plus workers pages in flight, and no worker can move |
| `DispatcherWitness.DeadlockIsPermanent` | core/protocol/router/helper/accounts/dispatcher/run.go:238-251 | from there, short of cancellation, no run moves a page again |
| `AccountDiffProof.AbsentCount` | core/protocol/router/helper/accounts/accounts_tag.go:338-345 | a child returns a nonce as often as its slice holds it if the client lacks it, and never otherwise |
| `AccountDiffProof.ChildrenFind` | core/protocol/router/helper/accounts/accounts_tag.go:314-357 | in whatever order the children finish, each nonce of the first 10000 accounts is returned as often as it stands there if the client lacks it, and no other |
| `AccountDiffProof.ChildrenCompleteIff` | core/protocol/router/helper/accounts/accounts_tag.go:314-357 | so it is for the whole batch exactly when the client holds every account from position 10000 on |
| `AccountDiffProof.JointReachableInv` | core/protocol/router/helper/accounts/accounts_tag.go:87-297 | in every reachable joint state every wanted nonce is in exactly one place: unread, queued, local, offered or abandoned |
| `AccountDiffProof.SessionAccounting` | core/protocol/router/helper/accounts/accounts_tag.go:87-297 | when `done` closes, wanted nonces are exactly delivered, dead, refused and never handed over, under every failure |
| `AccountDiffProof.DiffDelivered` | core/protocol/router/helper/accounts/accounts_tag.go:44-357 | after a normal session each nonce is in delivered pages and dead letters as often as the server lists it; on the diff path never if the client holds it |
| `AccountDiffProof.PagesAreSized` | core/protocol/router/helper/accounts/accounts_tag.go:114-265 | every delivered or dead page holds 1 to 3000 nonces |
| `AccountDiffSession.StepKeepsBlame` | core/protocol/router/helper/accounts/accounts_tag.go:222-265 | every joint step keeps: a refused or abandoned nonce has a parent that failed or will report failure |
| `AccountDiffSession.FinishedSessionMisses` | core/protocol/router/helper/accounts/accounts_tag.go:189-296 | when `done` is closed and every parent returned without error, wanted nonces are exactly delivered, dead and those of unread batches |
| `AccountDiffSession.FinishedSessionCompleteIff` | core/protocol/router/helper/accounts/accounts_tag.go:189-296 | nothing is missing exactly when the unread batches hold nothing the client wants |
| `AccountDiffSession.CancelledSessionLooksFinished` | core/protocol/router/helper/accounts/accounts_tag.go:203-252 | every diff session, cancelled early, can close `done` with every parent returning without error and no batch read |
| `AccountDiffParents.LeftoversAreFlushed` | core/protocol/router/helper/accounts/accounts_tag.go:203-265 | on the diff path no parent drops a nonce it has found, cancelled or not, unless the dispatcher refuses an enqueue |
| `AccountDiffParents.BatchesInOrder` | core/protocol/router/helper/accounts/accounts_tag.go:189-213 | parents take the batches in the order in which the iterator produced them |
| `AccountDiffParents.NoncesKeepOrder` | core/protocol/router/helper/accounts/accounts_tag.go:114-265 | in every run a parent's enqueues and leftover are, in order, what it had and read; after it returned a prefix of that |
| `AccountDiffParents.CancelledParentGivesUp` | core/protocol/router/helper/accounts/accounts_tag.go:222-232 | a parent waiting at the gate when the session is cancelled takes no further batch and reports no success |
| `AccountDiffParents.QueueIsBounded` | core/protocol/router/helper/accounts/accounts_tag.go:189-213 | never more batches are queued than there are parents |
| `AccountDiffCapacity.StepKeepsLoaded` | core/protocol/router/helper/accounts/accounts_tag.go:222-265 | every joint step but a re-queue or cancellation keeps: the channel's pages and those each parent may still send before its next gate pass are at most the full pages below the pause threshold plus four per parent |
| `AccountDiffCapacity.LoadIsBounded` | core/protocol/router/helper/accounts/accounts_tag.go:222-265 | this bound holds in every state that can be reached without a re-queue and without cancellation |
| `AccountDiffCapacity.NeverBlocks` | core/protocol/router/helper/accounts/dispatcher/account_dispatcher.go:112-142 | with that much capacity no enqueue ever finds the channel full in such a state |
| `AccountDiffOvershoot.ParentsOvershoot` | core/protocol/router/helper/accounts/accounts_tag.go:222-265 | for every configuration with less capacity: a run without any failure in which no worker moves and nothing leaves the channel until it holds exactly its capacity and an enqueue blocks |
| `AccountDiffOvershoot.BlocksIff` | core/protocol/router/helper/accounts/dispatcher/account_dispatcher.go:31-36 | for every configuration: some session lets an enqueue block without a re-queue or cancellation exactly when the capacity is below that bound |
| `AccountDiffOvershoot.FormulaBlocksIff` | core/protocol/router/helper/accounts/dispatcher/account_dispatcher.go:31-36 | for the formula's capacity and every pause threshold: exactly when there are at least eight diff parents |
| `AccountDiffOvershoot.DefaultCanBlock` | core/protocol/router/data_router.go:1544-1544 | the configuration the program builds, 97 pages of capacity for 30 parents, is one of them |
| `LruCache.Cache.constructor` | core/reconsillation/LRUCache/LRU.go:9-18 | an empty cache |
| `LruCache.Cache.InsertIntoLinkedList` | core/reconsillation/LRUCache/linkedlist.go:23-36 | a new node in front, links mutually inverse |
| `LruCache.Cache.RemoveFromLinkedList` | core/reconsillation/LRUCache/linkedlist.go:46-69 | cuts out the first node with the key, or changes nothing if there is none |
| `LruCache.Cache.RemoveTail` | core/reconsillation/LRUCache/linkedlist.go:71-84 | cuts off the last node |
| `LruCache.Cache.MoveToHead` | core/reconsillation/LRUCache/linkedlist.go:38-44 | the entry becomes the most recent one |
| `LruCache.Cache.Get` | core/reconsillation/LRUCache/LRU.go:20-29 | returns the stored value iff the key is present and makes it most recent |
| `LruCache.Cache.Put` | core/reconsillation/LRUCache/LRU.go:31-47 | stores in front; at capacity the least recent other entry goes; map, list and counter stay in step |
| `LruCache.Cache.Remove` | core/reconsillation/LRUCache/LRU.go:49-58 | removes the key and nothing else |
| `LruCache.Cache.Len` | core/reconsillation/LRUCache/LRU.go:60-64 | the number of entries of the abstract sequence |
| `LruCache.Cache.CapacityLeft` | core/reconsillation/LRUCache/LRU.go:66-70 | capacity minus that number |
| `HeaderLookup.EveryRunIsBounded` | core/reconsillation/LRUCache/LRU.go:20-58 | under every sequence of Get, Put and Remove: distinct keys, at most max(1, capacity) entries, and only database values if only those are put |
| `HeaderLookup.GetBlockFromLRUCache` | core/reconsillation/reconsillation.go:86-117 | returns what an unchanging database holds, on a hit even if the database does not answer, and states the cache it leaves in each case |
| `HeaderLookup.LookupsKeepMostRecent` | core/reconsillation/LRUCache/LRU.go:20-47 | after any lookups the cache holds exactly the max(1, capacity) most recently looked-up distinct blocks, most recent first |
| `Bisection.Partition` | core/protocol/router/bisection.go:210-232 | ranges of at most 10 blocks and ranges beyond the peer are tagged; exactly the others are asked about, each as often as it is held |
| `Bisection.AskedAre` | core/protocol/router/bisection.go:210-232 | a range is asked about exactly if it has more than 10 blocks and starts within the peer's height |
| `Bisection.Compare` | core/protocol/router/bisection.go:263-322 | unavailable sub-trees are tagged whole, the others' differences form the next layer, a broken comparison fails |
| `Bisection.Round` | core/protocol/router/bisection.go:193-325 | one round: the layer's tags and the next layer, for any outcome of each single request |
| `Bisection.DataBisect` | core/protocol/router/bisection.go:167-342 | the worklist computes the layer-by-layer refinement in at most LAYER_THRESHOLD rounds, all items of a layer at one depth |
| `BisectionProof.RefineTags` | core/protocol/router/bisection.go:167-335 | one layer or many: no differing pending block is lost and nothing outside the pending ranges is tagged |
| `BisectionProof.BisectionIsSound` | core/protocol/router/bisection.go:167-335 | on success every differing block is tagged and every tagged block lies in an initial difference, whichever sub-tree requests fail |
| `BisectionProof.TagsExplained` | core/protocol/router/bisection.go:210-335 | a range is tagged if and only if it is that of an item of a reached layer that is small, beyond the peer, had its request fail, or lies in the deepest layer |
| `BisectionProof.TagsCounted` | core/protocol/router/bisection.go:193-335 | tags and such items correspond one to one, with multiplicity: an item that was asked about and answered is not tagged itself |
| `BisectionProof.LargeTagsIff` | core/protocol/router/bisection.go:193-340 | a range of more than 10 blocks within the peer's height is tagged exactly if its own request failed in one of the six rounds or it is left after the sixth |
| `BisectionProof.NextLayerIs` | core/protocol/router/bisection.go:263-322 | the next worklist is exactly the reported ranges, in the order of the answers, one layer deeper |
| `BisectionProof.FailsIff` | core/protocol/router/bisection.go:193-325 | the bisection fails exactly when a round breaks |
| `LeafFeed.GenerateLeaves` | core/protocol/merkle/merkle.go:45-166 | for any batching and any error of creating the builder, reading, pushing or finalizing: fails exactly when one is met, refuses a reversed range, otherwise builds hash-or-zero for start to the end, the largest number standing for the latest block |
| `LeafFeed.FeedAll` | core/protocol/merkle/merkle.go:86-138 | the loop over batches is the feed of the whole stream, up to the first error |
| `LeafFeed.FeedBatch` | core/protocol/merkle/merkle.go:99-137 | one batch continues the feed where the earlier ones stopped |
| `LeafFeed.FeedIsVector` | core/protocol/merkle/merkle.go:84-154 | fed leaves are hash-or-zero from start to the last block fed, every push at start plus the leaves before it |
| `LeafFeed.LeavesAreVector` | core/protocol/merkle/merkle.go:84-154 | the final leaf vector is hash-or-zero for start..end with the expected length |
| `LeafFeed.LeavesDependOnMap` | core/protocol/merkle/merkle.go:84-154 | two streams with the same block-to-hash map give the same leaves |
| `LeafFeed.AlignedIffAscending` | core/protocol/merkle/merkle.go:99-137 | every push is aligned exactly when the stream strictly ascends |
| `WalClass.WAL.constructor` | common/WAL/operations.go:32-72 | an empty log with the given or default batch size |
| `WalClass.WAL.NextLSN` | common/WAL/operations.go:125-127 | sequence numbers go up by one |
| `WalClass.WAL.FlushBuffer` | common/WAL/operations.go:168-200 | the flush of the specification, for every write or metadata failure |
| `WalClass.WAL.WriteEventToLog` | common/WAL/operations.go:132-164 | the specified new state and the event's number, for every failure |
| `WalClass.WAL.WriteNodeToLog` | common/WAL/async_buffer.go:150-188 | one coalesced node appended and flushed as specified, each of its flushes with an outcome of its own |
| `WalClass.WAL.TruncateBeforeUnlocked` | common/WAL/operations.go:395-415 | drops exactly the entries below the number, or refuses |
| `WalClass.WAL.CreateCheckpointMarker` | common/WAL/operations.go:421-473 | flush, marker, and rotation of the oldest marker with its entries, for every failure of flush, marker file and directory |
| `WalClass.WAL.FindEvent` | common/WAL/operations.go:263-287 | buffer first, then disk |
| `WalClass.WAL.ReplayEvents` | common/WAL/operations.go:213-247 | the disk entries in order; fails on a log that never held anything |
| `WalProof.FlushSucceedsIff` | common/WAL/operations.go:168-200 | with working I/O a flush succeeds exactly when the buffer continues the disk log |
| `WalProof.RunRefines` | common/WAL/operations.go:132-473 | after every run of writes, flushes, async drains and checkpoints: disk contiguous up to lastFlushedLSN, buffer lastFlushedLSN+1..currentLSN, at most MaxSnapshotLimit markers, and together the numbered list of events from the front on |
| `WalProof.GetEventAgrees` | common/WAL/operations.go:263-287 | a lookup agrees with that list, except below a truncation |
| `WalProof.ReplayAgrees` | common/WAL/operations.go:213-247 | a replay yields the durable part of that list in order |
| `WalProof.MarkedEntriesSurvive` | common/WAL/operations.go:421-473 | no entry at or after a surviving nonzero marker is lost |
| `WalProof.CheckpointRotates` | common/WAL/operations.go:421-473 | a checkpoint marks the number of events so far; beyond ten markers the oldest goes and the log begins at the entry it pointed to, otherwise nothing is dropped |
| `WalProof.RotationDropsIff` | common/WAL/operations.go:395-473 | an entry is lost by a rotating checkpoint exactly if it lies below the oldest marker |
| `WalProof.WriteBuffersUntilFull` | common/WAL/operations.go:132-164 | a write only joins the buffer until that holds a full batch; a successful one leaves less than a batch |
| `WalProof.ReopenRefines` | common/WAL/operations.go:77-100 | a crash between operations loses exactly the unflushed events |
| `WalProof.AcceptsIffFit` | common/WAL/operations.go:132-200 | writing any event and flushing succeeds, with working I/O, exactly when counter and buffer continue the disk log |
| `WalProof.ReopenFitIff` | common/WAL/operations.go:77-100 | a restarted log takes the next event exactly when the saved counter is the disk log's last index |
| `WalProof.CrashBeforeSave` | common/WAL/operations.go:181-195 | a crash after some writes of a flush and before the metadata is saved leaves a log on which writing and flushing any event fails |
| `WalProof.FaultIsPermanent` | common/WAL/operations.go:132-200 | a log that refuses one event, its numbers within the counter, refuses every event after any run of operations and failures, and the disk never passes the counter of that moment |
| `WalProof.SerializationFailureUnfits` | common/WAL/operations.go:137-143 | after an event that fails to serialize, no run of operations and failures leads to a log that takes an event |
| `WalProof.FlushFitIff` | common/WAL/operations.go:168-200 | after a flush with failures the log takes the next event exactly when the flush wrote nothing or everything |
| `WalFaults.StepTracks` | common/WAL/operations.go:132-473 | every operation, whatever fails in it, keeps: disk log and buffer hold right entries only, and together every event above the truncation point |
| `WalFaults.NothingIsLost` | common/WAL/operations.go:263-287 | after any run of operations with any failures each number above the truncation point still finds the event it was taken for, or nothing if that did not serialize |
| `WalFaults.CheckpointTracks` | common/WAL/operations.go:421-473 | a checkpoint, whatever fails, loses nothing, and a marker it leaves is within the disk log and above every event so far |
| `AsyncBuffer.Stack.PushData` | common/WAL/async_buffer.go:80-95 | accepted unless closed; adjacent data pushes share a node |
| `AsyncBuffer.Stack.PushCheckpoint` | common/WAL/async_buffer.go:97-112 | accepted unless closed; consecutive checkpoints collapse |
| `AsyncBuffer.Stack.Swap` | common/WAL/async_buffer.go:114-129 | takes the whole stack and leaves an empty one |
| `AsyncBuffer.Stack.Close` | common/WAL/async_buffer.go:131-148 | closes and takes what is left in one lock region |
| `AsyncBufferProof.StepKeepsInv` | common/WAL/async_buffer.go:80-188 | every step of every buffer, creator and direct writer, under any I/O failures, keeps the log holding what its numbers were taken for and each buffer's accepted pushes split into written, snapshot and stack |
| `AsyncBufferProof.WrittenOnceInOrder` | common/WAL/async_buffer.go:114-188 | at any moment, whatever has failed, the log has numbered a prefix of what a buffer accepted, in push order, each once; all of it once the buffer stopped |
| `AsyncBufferProof.RecordsAreNumbered` | common/WAL/async_buffer.go:150-188 | what was numbered k+1 is found there unless truncated, for any number of buffers and other writers and under any I/O failures |
| `AsyncBufferProof.CheckpointsFollowPayloads` | common/WAL/async_buffer.go:150-188 | a checkpoint asked for by a buffer leaves no marker, or one up to which the log has exactly the payloads the buffer accepted before asking, all on disk |
| `AsyncBufferProof.CheckpointsMadeOnce` | common/WAL/async_buffer.go:150-188 | the log is asked for at most one checkpoint per accepted request, and exactly one once the buffer has stopped |
| `AsyncBufferProof.CollapsedMarkIsCovered` | common/WAL/async_buffer.go:97-112 | a collapsed checkpoint request follows a checkpoint directly |
| `AsyncBufferProof.StacksAreCoalesced` | common/WAL/async_buffer.go:80-112 | no reachable stack or snapshot has two adjacent data nodes or two adjacent checkpoints |
| `AsyncBufferProof.OneOpenBuffer` | common/WAL/operations.go:326-374 | however many buffers drain at once, at most one takes pushes, and it is the one in the slot |
| `AsyncBufferProof.ReturnedIsAcceptedOrLost` | common/WAL/operations.go:326-374 | in every reachable state the calls that returned, for each event and for checkpoints, are exactly the accepted and collapsed pushes plus the first pushes creators lost |
| `AsyncBufferProof.CreatorPushCanBeLost` | common/WAL/operations.go:343-371 | for an event and for a checkpoint: a run in which a returned call is in no buffer and not in the log |
| `Ledger.CalculateAccountState` | core/reconsillation/reconsillation.go:644-730 | balance change, gas spent and highest outgoing nonce of one account over a transaction list; for one transaction the charge and the change from its fields |
| `Ledger.OneTransaction` | core/reconsillation/reconsillation.go:656-763 | kinds 1 and 2 cost the most that any price up to the maximal fee buys, the priority fee counting only without one; kind 0 the gas price; all others nothing. The fee splits evenly, the odd wei to the coinbase |
| `Ledger.EffectTotal` | core/reconsillation/reconsillation.go:656-727 | one transaction changes the total of all participants by exactly what it mints or burns, whatever roles coincide |
| `Ledger.ReplayConserves` | core/reconsillation/reconsillation.go:644-763 | so does any transaction list, including odd fees and unassigned gas shares |
| `Ledger.CompleteReplayConserves` | core/reconsillation/reconsillation.go:644-763 | with sender, recipient and both fee addresses present the balances sum to zero |
| `Ledger.ReplayConcat` | core/reconsillation/reconsillation.go:644-730 | replay is additive over concatenation |
| `Ledger.ReplayPermuted` | core/reconsillation/reconsillation.go:644-730 | replay does not depend on the order of transactions |
| `Ledger.RangesInTurn` | core/reconsillation/reconsillation.go:611-621 | reconciling any number of ranges in turn never ends below one combined run |
| `Ledger.RangesInTurnExact` | core/reconsillation/reconsillation.go:611-621 | and ends exactly there if no range before the last overdraws |
| `Ledger.TwoRangesEqualIff` | core/reconsillation/reconsillation.go:611-621 | for two ranges: equal exactly when the first does not clamp or the second only takes |
| `Reconcile.Reconciler.ComputePhase` | core/reconsillation/reconsillation.go:145-209 | all updates from the stored balances, or the failed accounts |
| `Reconcile.Reconciler.PreCreatePhase` | core/reconsillation/reconsillation.go:222-268 | missing accounts of the reply are created empty and no longer count as new |
| `Reconcile.Reconciler.CommitPhase` | core/reconsillation/reconsillation.go:303-312 | every update takes effect; one that carries 0 for a held account leaves its identity as it was; no other account changes |
| `Reconcile.CommitMeans` | common/types/nodeinfo.go:105-106 | 0 is never written over a stored identity, any other identity is taken |
| `Reconcile.Reconciler.Reconcile` | core/reconsillation/reconsillation.go:128-325 | database and result of a run, for every combination of failures |
| `Reconcile.PlannedOk` | core/reconsillation/reconsillation.go:213-265 | phase 1.5 keeps every stored account, adds exactly the storable fetched ones of the run, empty and with the identity of their first storable entry, and flags exactly the others as new |
| `Reconcile.SuccessfulRunSetsBalances` | core/reconsillation/reconsillation.go:538-634 | a successful run sets each account to max(0, old + delta) and touches no other; a stored identity stays, a new account gets that of the first storable reply entry for it |
| `Reconcile.FailedRunKeepsAccounts` | core/reconsillation/reconsillation.go:128-325 | a failed run leaves every stored account as it was; stopped in phase 1 it adds nothing, later exactly the empty accounts of phase 1.5 |
| `Reconcile.FailedRunUntouchedIff` | core/reconsillation/reconsillation.go:213-275 | a failed run leaves the database untouched exactly when it stopped in phase 1 or the reply held no storable unknown account |
| `Reconcile.FailedRunCanAddAccount` | core/reconsillation/reconsillation.go:254-260 | a run that reports an error and leaves a new account behind |
| `Reconcile.RunKeepsIdentity` | core/reconsillation/reconsillation.go:332-566 | one run keeps a stored identity nonce |
| `Reconcile.IdentityNeverChanges` | core/reconsillation/reconsillation.go:128-566 | over any sequence of runs with any failures a stored identity nonce never changes and no account disappears |
| `DataReorder.ProcessAndWriteBatch` | core/datasync/datasync.go:211-277 | what writing one batch leaves in log and database, from the fetched blocks and accounts, for every failure including a checkpoint's, and its tags |
| `DataReorder.ProcessDataQueue` | core/datasync/datasync.go:119-208 | for every completion order, failed fetch and failed write: exactly batches 1..k are written, in order, k being the longest run that arrived before the first failed fetch and can be written; success iff k is all |
| `DataReorder.OrderDoesNotShow` | core/datasync/datasync.go:166-208 | without a failed fetch every completion order gives the same writes |
| `DataReorder.FailureOnlyShortens` | core/datasync/datasync.go:166-208 | a failed fetch only shortens the sequence of writes |
| `DataReorder.RunsAreWriteAhead` | core/datasync/datasync.go:224-268 | in every run each database write directly follows the flush of its own record and each checkpoint its database write |
| `DataReorder.RunsStorePrefix` | core/datasync/datasync.go:166-277 | after every run the database holds exactly the blocks of batches 1..k in batch order |
| `ChunkReorder.BuildChunks` | core/accountsync/accountsync.go:213-347 | chunk i carries index i, batch i and the total; as many are sent as are ready before the first encode failure or abandoned send, and all of them concatenate to the iterator's nonces; zero accounts give one empty final chunk |
| `ChunkReorder.FinalIndexIs` | core/accountsync/accountsync.go:246-268 | the final chunk is the one in which the announced total falls |
| `ChunkReorder.SendReady` | core/accountsync/accountsync.go:325-338 | sends pending chunks while the next index is there |
| `ChunkReorder.SuccessIsCompleteIff` | core/accountsync/accountsync.go:264-343 | a successful pipeline sent all chunks exactly when no worker dropped a result |
| `ChunkReorder.DroppedChunkGoesUnreported` | core/accountsync/accountsync.go:269-273 | for every full set of at least two batches and every chunk: if a worker drops that chunk's result on cancellation, only the chunks before it are sent and no error is reported |
| `ChunkReorder.MarksLastIff` | core/accountsync/accountsync.go:246-268 | exactly the last chunk is marked iff the iterator produced the announced number of batches |
| `ChunkReorder.FullBatchesMarkLast` | core/accountsync/accountsync.go:246-268 | full iterator batches mark the last chunk and only it |
| `Tags.SortedCopyDenotes` | core/datasync/datasync.go:389-402 | sorting a tag keeps the multiset of its blocks |
| `DataBatches.InnerLoopEndsIff` | core/datasync/datasync.go:408-441 | the cutting loop leaves a range exactly when it is empty or stops short of the largest 64-bit number |
| `DataBatches.PackRange` | core/datasync/datasync.go:408-442 | one range fills the current and as many new batches as it needs, all full, nothing lost or reordered |
| `DataBatches.BuildDataBatches` | core/datasync/datasync.go:385-463 | the batches hold the tag's block multiset, all but the last exactly 30 blocks |
| `DataBatches.BatchCount` | core/datasync/datasync.go:385-463 | their number is the ceiling quotient by 30 |
| `DataBatches.BatchContents` | core/datasync/datasync.go:385-463 | batch k is positions 30k onward of the sorted block list |
| `HeaderBatches.PackRange` | core/headersync/headersync.go:720-741 | the 64-bit step of the specification for every range: a range opens a new batch if the counted size would overflow the current one |
| `HeaderBatches.BuildBatches` | core/headersync/headersync.go:698-760 | for every tag the builder of the specification; for proper ranges an exact, tight partition within the limit if and only if no count overflows |
| `HeaderBatches.BuildHolds` | core/headersync/headersync.go:698-760 | for every tag the batches followed by what the last check drops are the sorted blocks in order |
| `HeaderBatches.BuildPartitionsIff` | core/headersync/headersync.go:720-758 | for every tag of proper ranges the promise holds exactly when no fill plus range size reaches 2 to the 64; otherwise a batch exceeds the limit or blocks are lost |
| `HeaderBatches.ShortRangesFit` | core/headersync/headersync.go:720-729 | ranges of at most 2 to the 64 minus 1500 blocks never overflow |
| `HeaderBatches.OneRangeKeptIff` | core/headersync/headersync.go:720-758 | a tag of one range, whatever its ends, keeps its blocks exactly when it is not the range of all block numbers |
| `HeaderBatches.ReversedRangeBreaksLimit` | core/headersync/headersync.go:720-739 | a reversed range is counted backwards: three ranges of 1900 blocks end up in one batch |
| `HeaderBatches.OversizeIsOneRange` | core/headersync/headersync.go:720-739 | a batch over the limit is one range of the tag, itself over the limit |
| `HeaderBatches.WholeSpaceIsDropped` | core/headersync/headersync.go:720-758 | the range of all 64-bit numbers goes through the builder and leaves no batch |
| `HeaderBatches.CountedRightIff` | core/headersync/headersync.go:720-741 | for every list of ranges the counted size is the true one after each addition exactly when no range is reversed and no count overflows |
| `HeaderBatches.CountedRightKeeps` | core/headersync/headersync.go:698-760 | then all blocks are kept, and a batch over the limit has all its blocks from its last range |
| `HeaderDivision.DivideTags` | core/protocol/router/helper/helper.go:32-53 | the pieces of the 64-bit loop: consecutive, of at most 1500 blocks, and exactly the range |
| `HeaderDivision.LastPieceReversed` | core/protocol/router/helper/helper.go:39-47 | a last piece whose end does not fit in 64 bits is reversed: the pieces hold the range up to its start only |
| `HeaderDivision.DivideExactIff` | core/protocol/router/helper/helper.go:38-47 | for every range the loop leaves, after whatever number of passes, with pieces that are exactly the range iff its index does not wrap |
| `HeaderDivision.HeaderRequests` | core/headersync/headersync.go:698-760 | batches built from a divided range never exceed 1500 headers |
| `PotsClass.PoTSWAL.constructor` | core/pots/pots_wal.go:32-44 | the index rebuilt from the log |
| `PotsClass.PoTSWAL.RebuildIndex` | core/pots/pots_wal.go:48-77 | the index of the disk entries; other types and undecodable entries leave no trace; an empty log is fine |
| `PotsClass.PoTSWAL.Write` | core/pots/pots_wal.go:80-114 | log and index after one write, for every failure |
| `PotsClass.PoTSWAL.WriteBatch` | core/pots/pots_wal.go:118-167 | log and index after a batch; nothing is indexed unless the final flush succeeds |
| `PotsClass.PoTSWAL.ReadByLSNs` | core/pots/pots_wal.go:245-271 | the blocks at the numbers, or an error if one cannot be read |
| `PotsClass.PoTSWAL.Read` | core/pots/pots_wal.go:172-191 | a page of the insertion order |
| `PotsClass.PoTSWAL.ReadByRange` | core/pots/pots_wal.go:195-206 | the indexed blocks of a range |
| `PotsClass.RangeScanEndsIff` | core/pots/pots_wal.go:198-202 | the scan ends exactly when the range stops short of the largest 64-bit number |
| `PotsProof.HistoryLive` | core/pots/pots_wal.go:80-167 | after any successful history of writes, batches and foreign events the live index is the index of all events |
| `PotsProof.RebuildIsLive` | core/pots/pots_wal.go:48-77 | and a replay of the log, before or after a restart, rebuilds it |
| `PotsFaults.CallAgreesIff` | core/pots/pots_wal.go:80-167 | from any live state, after one write or batch under any I/O failures, a replay of log and buffer rebuilds the live index exactly when the call succeeded or had no block to append |
| `PotsFaults.HistoryAgreesIff` | core/pots/pots_wal.go:48-167 | after any history of calls under any failures, exactly when no call failed after it had appended a block; otherwise a replay finds just the blocks of such calls in addition |
| `PotsFaults.HistoryMisses` | core/pots/pots_wal.go:80-167 | in every such history disk log and buffer stay a gapless prefix and suffix of the appended events |
| `PotsFaults.FailedFlushDiverges` | core/pots/pots_wal.go:96-111 | from any live state: a block whose write fails is made durable by the next write and found by a replay, but not indexed |
| `PotsFaults.SwappedWritersDiverge` | core/pots/pots_wal.go:96-111 | from any live state: two writers that index their blocks in the opposite order to their numbers leave an index no replay builds; for one block it points to the older version |
| `PotsProof.PageIsSlice` | core/pots/pots_wal.go:172-191 | a page is the slice of the written blocks at its positions, empty for limit 0 |
| `PotsProof.PagesReturnAll` | core/pots/pots_wal.go:172-191 | consecutive pages of any positive limit return each written block once in write order |
| `PotsProof.RangeReadsLatest` | core/pots/pots_wal.go:195-206 | a range read returns the last written version of each block of the range, ascending |
| `PotsProof.LatestIsHighest` | core/pots/pots_wal.go:72-74 | latestBlock is the highest block number ever written |
| `PotsTags.BytesEqual` | core/protocol/router/helper/pots/compare_maps.go:34-44 | byte-wise equality |
| `PotsTags.CompareMaps` | core/protocol/router/helper/pots/compare_maps.go:17-30 | exactly the server's blocks that the client lacks or holds with another hash, in any visiting order |
| `PotsTags.SortKeys` | core/protocol/router/helper/pots/pots_tags.go:128-137 | the map's block numbers in ascending order |
| `PotsTags.ServedMapIsLast` | core/protocol/router/helper/pots/pots_tags.go:97-100 | the served map holds the last header of each block number, and nothing else |
| `PotsTags.FindRun` | core/protocol/router/helper/pots/pots_tags.go:146-153 | the maximal consecutive run from a position on |
| `PotsTags.GenerateTagsFromMap` | core/protocol/router/helper/pots/pots_tags.go:123-167 | sorts the map's block numbers itself; the tag denotes exactly the map's blocks, as disjoint maximal runs of two or more and isolated single blocks |
| `PotsTags.ProcessPoTSRequest` | core/protocol/router/helper/pots/pots_tags.go:37-118 | for any request, client map and served headers the response tag denotes exactly the served headers absent from or different in the client's map; refusals exactly in the error cases |

## Left out

- libp2p streams, deadlines, heartbeats, transport choice, authentication: plumbing; their outcomes are success flags.
- The choice between full sync and diff (core/protocol/router/helper/accounts/accounts_tag.go:60): both paths are covered, the choice is a parameter.
- Timers and tickers: an idle expiry or tick is a step that is always enabled.
- The 32-bit width of the page sequence counter and of the chunk index: page numbers are unbounded, and a chunk pipeline has at most 2^32 batches and fewer than 2^63 - 100000 accounts.
- The `deliveredAccounts` counter and the summary that `Run` returns.
- A watcher that outlives its `WaitForBatchStart` call because cancellation and return race: it could only broadcast once more.
- Errors when spawning goroutines in `diffWithGRO`.
- `Keys` and `Close` of the LRU cache, and its mutex: each call is one atomic operation.
- `calculateSubBlockMerge` and the sub-tree requests themselves: a request's outcome is a parameter.
- HeaderSync's `processQueue`, `SplitIntoBatches`, catch-up sequencing and response builders: they would add easier copies of what is here.
- Transactions' address normalisation and the transaction-nonce and count fields of an account update.
- The order in which `sort.Slice` leaves ranges with equal starts: any is covered.
- HeaderBatches.BuildBatches: the exact partition is characterised for tags of proper ranges; for tags with reversed ranges CountedRightIff says when sizes are counted right.
- DataBatches.BuildDataBatches: covers tags on which the builder ends (see InnerLoopEndsIff).
- HeaderDivision.DivideTags: covers ranges on which the loop index does not wrap (DivideExactIff covers the others).
- PotsClass.PoTSWAL.ReadByRange: covers ranges on which the scan ends (see RangeScanEndsIff).
- PotsProof.RebuildIsLive: covers successful histories; PotsFaults.HistoryAgreesIff covers the others.
- PotsFaults.HistoryAgreesIff: calls follow one another, as in the one loop that writes blocks (core/pubsub/subscriber/subscriber.go:143); SwappedWritersDiverge shows why they have to.
- AccountDiffOvershoot.BlocksIff: speaks about batches of at most 10000 accounts, the children's windows, and about runs without re-queues; those are in StuckIff.
