# Verified model of the shielded-pool indexer

A Dafny model of the indexer's replicated state machine (`apps/indexer/src`), of the incremental Merkle tree it
wraps (`packages/core/src/imt.ts`), and of the message framing of the prover's witness worker
(`prover/prover_service/witness.py`). `dafny verify dfyconfig.toml` checks the whole project.

## What is modelled

The indexer replays an ordered chain log into a Merkle mirror and four read models (event feed, arbiter ledger, module
registry, KEM chunk store), stages their changed rows in write-behind buffers, persists them in one transaction with
the block cursor, and resumes from that cursor after a failure.

* **Functions first.** Every store has a datatype for its state and a function for each of its operations, with the
  branches, the edge cases and the throws of the source (a throw is a `false` or `None` next to the state it leaves
  behind). Invariants, round trips and whole-run theorems are lemmas about these functions. The lemmas called `...Exact`
  and `...Iff` pin each function on its inputs, by positions and conditions instead of its own recursion.
* **Objects beside them.** `ImtTree`, `MirrorTree`, `PostgresStore`, `PostgresLedger`, `ModuleRegistry`,
  `KemChunkStore`, `BlockCursor`, `Participants` (persistAtomically), `Indexer` (applyLogs), `Scanner` and
  `WitnessHost` are classes with the source's fields and loops. Each method ensures that its new state is the
  function of its old state. `Indexer.ApplyLogs` runs over the five store objects and is proved equal to the
  function `Ingest.ApplyKept` behind the function `Ingest.Gate`, thrown or not.
* **The chain** is a list of op groups (`Correlation.Group`): what one op of the pool or of a consumer module emits.
* **The machine** (`Crash`) interleaves polls, failed persists, commits, commits whose success is not reported, crashes
  and reboots. A poll takes any head past the cursor, older than the last one or not; it is `Ingest.ApplyKept` over what
  `Ingest.Gate` keeps of the range with the watch-set as it stands (`Poll.UncutIsApplyLogs`), possibly aborted after any
  number of pass-1 logs or pass-2 groups, followed by the head check.

### Premises of the whole-run results

`Poll.Honest` is their conjunction. `Premises.ToldApartIsHonest` builds chains that meet it from any balanced list of
registrations, removals, consumer deposits and batches that fits the tree.

* `Runs.ChainOk`: truthful insert indices and roots, one log per (tx, logIndex), no transaction across the upgrade after
  which withdrawals are announced, and for each group a handler with nothing to throw over (a key for every envelope that
  needs one, bytes that hash to their commitment, a balanced registry stream), a registered module and recovered notes at
  new leaves under new commitments.
* `LedgerSync.AlarmsFit`, inside it: no two envelope alarms under one (tx, detail). The chain does not promise this;
  `LedgerSync.TwinRejectionsCollapse` has two ops that break it.
* `Watch.AllEntitled`: modules emit ops only while registered, and chunk accepts only for their own incomplete batch.
* `Gated.Distinguishable`: the ops of one transaction differ in their first commitment or their subtree root.
* `Crash.AllSettle`, for the durable rows: commits at an old head settle. `Crash.RowsStayCleanIff` shows that it is exactly
  what is needed, and `Crash.ForwardSettles` that heads which never go back give it.

The hash is an uninterpreted constant function; nothing is assumed of it but where a lemma says so (`Disclosure.CollisionFree`,
and reduction modulo p for the aliasing result). So are keccak, the note commitment and the
JSON parser. The tree geometry (`LOG_B`, `TOP_LEVELS`, hence `B` and `H`) and the presence of an authority key
(`ARBITER`) are arbitrary constants.

### Files, bottom up

| file | contents |
|---|---|
| `Field`, `Merkle`, `Tables`, `Chain` | block and ancestor arithmetic, the zero-padded tree, SQL tables as maps, log keys |
| `Imt`, `Mirror`, `Tree`, `LeafTables`, `Disclosure`, `Binding` | the frontier tree, the mirror and its paths, its rows, the disclosure checks, what a root proves |
| `History`, `Ledger`, `Conservation`, `Listing`, `Derive`, `Booking`, `LedgerTables`, `LedgerSync`, `LedgerStore` | the arbiter ledger: its books, what an op lists and what it books, its rows |
| `Registry`, `Kem`, `KemTables`, `KemStore`, `Feed`, `FeedStore` | the other stores |
| `Ingest`, `Recording`, `Correlation`, `Replay`, `Effects`, `Views` | applyLogs, what its handlers take and leave, and what one group does |
| `Watch`, `Gated`, `Poll` | the emitter gate, what it leaves of a range, one poll and its retries |
| `Durable`, `Runs`, `Machine`, `Boot`, `Remembered`, `Reboot`, `Stale`, `Crash`, `Served`, `Wedge`, `Heal`, `Premises`, `Persist`, `Indexer` | persistence, whole runs and what they serve, chains that meet the premises, the objects on top |
| `Retry`, `Scan`, `Fetch`, `Witness` | handlers that throw, the log scans and what a poll is handed, the witness pipe |

## What the proofs found

Each of these is a lemma about the code as it is, with the exact condition where there is one.

* A removed module leaves the watch-set at once. When the persist of the range that applied its removal fails, the
  retry's gate drops that module's ops of the range but not their inserts. The retry goes through exactly when no op it
  lets in follows a dropped one of its transaction that draws from the same queue (`Poll.RetryGoesThroughIff`).
  Otherwise every later poll of the process throws as well (`Wedge.FailedPersistWedgesIff`, `Wedge.WedgedForGood`; a run
  that gets there is `Wedge.RemovedModuleWedges`), and a restart gets out of it (`Wedge.RestartUnwedges`).
* The feed and the ledger take a log's key before `deriveOp` can throw over a missing KEM key. The retry is a replay
  to both, and the op is never booked (`Retry.UnbookedForGood`). A withdrawal that throws there is not queued for its
  announcement either: its entry stays bare exactly when the announcement was a stealth one
  (`Retry.ThrownWithdrawalStaysBareIff`).
* `acceptChunk` takes the key before the keccak check, so the retry its error message asks for lands exactly when the
  first attempt did not throw (`Kem.RetryLandsIff`); the registry's corrupt-stream throw likewise happens once
  (`Registry.ThrowIsNotRepeated`).
* An op whose inserts nobody records (an OpApplied with no decodable family event) leaves a leaf without a row; the
  durable rows rebuild the run exactly when there is no such leaf (`LeafTables.RowsRebuildTheRunIff`).
* The in-memory spent mark and the SQL update agree exactly when every other note under the commitment is spent
  already (`LedgerSync.MarkAgreesIff`); every envelope alarm becomes a row exactly when no two share a (tx, detail)
  (`LedgerSync.AlarmsKeptIff`), and two KEM binding mismatches of one transaction do.
* A head older than one polled before passes the head check exactly when nothing in between inserted a leaf
  (`Crash.PollCompletesIff`). The commit then leaves the rows past the cursor exactly when some module in between was
  new or moved an odd number of times, or some chunk was newly accepted (`Crash.CommitIsCleanIff`, `Stale.DumpMoves`). After a
  crash the first poll throws over them exactly in the odd case (`Crash.OldHeadCosts`), and the polls after it get
  further each time until one gets through (`Stale.RereadHeals`); its commit makes the rows clean again
  (`Heal.OldHeadHeals`).
* The ledger's books stay balanced under an op exactly when the op's amounts add up
  (`Conservation.BalancedStaysIff`).
* `deriveHistory` says a pure self-send is listed over output 0; the code takes the first nonzero output
  (`Listing.HistoryListed`).
* A worker answer of the wrong length leaves its payload in the pipe: the next message is intact exactly when the
  payload was empty or of the promised length (`Witness.NextMessageIsIntactIff`).
* `attachSubtree` says a rejected attach leaves the tree untouched; on a full tree it throws only after the padding
  has been inserted. An attach is refused exactly when less than a block is left past the frontier, and has then moved
  the frontier exactly when a slot was left (`Imt.RefusedAttachMovesIff`, with the input `Imt.OneSlotLeft`).

## Model

| member | source | states |
|---|---|---|
| Imt.ImtTree.AppendLeaf | packages/core/src/imt.ts:96-100 | the frontier tree after an append carries exactly the zero-padded fold of its rows plus the new leaf; refused only when full |
| Imt.ImtTree.PadToBlockBoundary | packages/core/src/imt.ts:254-261 | padding moves the frontier to the next block start and changes no fold |
| Imt.ImtTree.AttachSubtree | packages/core/src/imt.ts:111-137 | pad, then the subtree root is the block's node and the root is the fold with the block opaque; refused exactly when the padded frontier is the end of the tree, which leaves the tree as it was exactly when no block was part full |
| Imt.RefusedAttachMovesIff | packages/core/src/imt.ts:111-137 | an attach needs a whole block past the frontier; refused, it has moved the frontier exactly when a slot was left |
| Imt.OneSlotLeft | packages/core/src/imt.ts:254-261 | a tree of single leaves with one slot left, which a refused attach uses up |
| Imt.ImtTree.InsertNode | packages/core/src/imt.ts:223-252 | folding one node up the frontier gives the root of the grown tree and the frontier of its next index |
| Imt.ComputeSubtreeRoot | packages/core/src/imt.ts:142-154 | the level-by-level fold of up to B commitments is the fold of their zero-padded run |
| Imt.OrderedRowsAreTheRun | apps/indexer/src/tree.ts:230-243 | the rows in index order are the inserts in the order they happened |
| Merkle.PathFolds | apps/indexer/src/tree.ts:302-346 | a leaf folded up its siblings is its ancestor at every level |
| Merkle.PairUpKeepsFold | apps/indexer/src/tree.ts:361-364 | one level of pairing keeps the fold of a run |
| Merkle.LeftThenRight | packages/core/src/imt.ts:272-279 | the hash is fed left then right, at the bottom of a fold, a pairing, a path and the tree |
| Binding.PathBindsLeaf | packages/core/src/imt.ts:266-279 | under a collision-free hash two paths for one index that reach one root start at one leaf |
| Binding.FoldBindsRun | apps/indexer/src/disclosure.ts:169-176 | and a block root is the fold of one run only, so a batch can be filled in one way |
| Mirror.RecordsFoldToRoot | apps/indexer/src/tree.ts:280-291 | the leaf records, folded independently of the frontier, give the frontier's root |
| Mirror.AppendExact | apps/indexer/src/tree.ts:114-123 | an append is a replay, the next slot with the event's root, or a throw, and exactly which |
| Mirror.AttachExact | apps/indexer/src/tree.ts:131-159 | the same for an attach, with what it tags and wipes; a throw tags nothing |
| Mirror.FillExact | apps/indexer/src/tree.ts:212-216 | which slots and marks a fill writes |
| Mirror.OpAppendExact | apps/indexer/src/tree.ts:170-187 | one op's appends go through exactly if they are all there already, or leave no gap, fit, and give the event's root |
| Mirror.ServedPathFolds | apps/indexer/src/tree.ts:292-346 | in a coherent mirror with every leaf recorded, the H siblings of any non-opaque leaf fold it to exactly the frontier root |
| Mirror.AppendKeeps | apps/indexer/src/tree.ts:114-123 | an append keeps records, batches and frontier consistent |
| Mirror.AttachKeeps | apps/indexer/src/tree.ts:131-159 | so does an attach, first or replayed: the wipe never touches a recorded or recovered leaf |
| Mirror.RecordKeeps | apps/indexer/src/tree.ts:190-198 | so does recording a leaf the tree has |
| Mirror.OpAppendLands | apps/indexer/src/tree.ts:170-187 | one op's appends, first or replayed in part, either throw or leave the op's root at the frontier and every one of its leaves recorded |
| Mirror.FillKeeps | apps/indexer/src/tree.ts:212-216 | so does filling a block with a run that folds to its root |
| Mirror.FillMovesNothingElse | apps/indexer/src/tree.ts:200-216 | such a fill moves no block node and no path outside the block |
| Mirror.LeafTableIsRowTable | apps/indexer/src/tree.ts:230-243 | the rows the delta buffers add up to are the rows of the frontier tree |
| Mirror.RebuildRefinesRun | apps/indexer/src/tree.ts:259-278 | replaying the durable rows in index order rebuilds frontier, pads, records and batch roots |
| Tree.MirrorTree.ApplyAppend | apps/indexer/src/tree.ts:114-123 | the object's new state and verdict are the function's, replays skipped |
| Tree.MirrorTree.ApplyAttach | apps/indexer/src/tree.ts:131-159 | the same for attaches, including the throw on a wrong start or root |
| Tree.MirrorTree.ApplyOpAppend | apps/indexer/src/tree.ts:170-187 | the same for one op's appends |
| Tree.MirrorTree.RecordLeaf | apps/indexer/src/tree.ts:190-198 | the row is buffered on first sight only |
| Tree.MirrorTree.FillBatch | apps/indexer/src/tree.ts:212-216 | the run overwrites the block's slots and marks it filled, publicly or not |
| Tree.MirrorTree.RebuildFromLeaves | apps/indexer/src/tree.ts:259-278 | a snapshot is accepted exactly when every row sits where the frontier would put it and there is room, and then replays |
| Tree.MirrorTree.BlockNode | apps/indexer/src/tree.ts:356-366 | the opaque root, or the fold of the block's recorded slots |
| Tree.MirrorTree.FoldOwnBlock | apps/indexer/src/tree.ts:305-317 | phase A writes the sibling and bit of every level inside the block |
| Tree.FoldBlocks | apps/indexer/src/tree.ts:319-340 | phase B writes those above it and ends at the fold of the whole |
| Tree.MirrorTree.Path | apps/indexer/src/tree.ts:292-347 | the sentinel exactly for opaque blocks; otherwise all H siblings and bits; the self-check cannot fire when every leaf is recorded |
| LeafTables.RowsRebuildTheRunIff | apps/indexer/src/ingest.ts:1174-1192 | the durable rows rebuild the run if and only if every appended leaf was recorded |
| LeafTables.RecordStaysSynced | apps/indexer/src/tree.ts:190-198 | durable leaf rows plus the delta buffer stay the mirror's rows |
| LeafTables.AttachStaysSynced | apps/indexer/src/tree.ts:148-158 | the same across attaches |
| Disclosure.ConsumerVerdictExact | apps/indexer/src/disclosure.ts:140-182 | leaves are handed over exactly when length, canonical form, chain and fold all check out, and are then the published run |
| Disclosure.ClassesExact | apps/indexer/src/disclosure.ts:54-77 | a pool publish is withheld, verified, unverifiable or mismatched each if and only if it is empty, folds to the hash, has the receiver length and does not, or neither; and what the result reports |
| Disclosure.ServedClassesExact | apps/indexer/src/disclosure.ts:90-109 | the same for a served blob, where an element outside the field is a mismatch before anything is folded |
| Disclosure.ConsumerClassesExact | apps/indexer/src/disclosure.ts:140-182 | the same for a consumer publish, and which two values its alarm shows |
| Disclosure.ChainBindsEveryElement | packages/core/src/crypto/envelope.ts:229-235 | the chain starts at zero, and under a collision-free hash it binds every element |
| Disclosure.FoldPairsIsFoldRun | apps/indexer/src/disclosure.ts:171-175 | pairing until one node is left is the LOG_B-level block fold |
| Disclosure.PublicFillIsSafe | apps/indexer/src/disclosure.ts:111-119 | after a verified publish every path into the block folds to the root and no other path moves |
| Disclosure.AliasIsCaughtOnlyByCanonicalCheck | apps/indexer/src/disclosure.ts:79-109 | an element plus the modulus passes the plain classifier and never the served one |
| History.PushKeepsAscending | apps/indexer/src/ledger.ts:441-451 | inserting a fresh seq keeps the feed strictly ascending and loses nothing |
| History.PushOrderIsIrrelevant | apps/indexer/src/ledger.ts:429-451 | distinct seqs in any order give one feed |
| History.LastIndexBelow | apps/indexer/src/postgres.ts:203-210 | the binary search splits the feed exactly at `before` |
| History.PageIsNewestBelow | apps/indexer/src/postgres.ts:283-291 | a page is the newest `limit` items below `before` |
| History.PagesCoverFeed | apps/indexer/src/postgres.ts:270-291 | chained pages of any limit list the whole feed newest first, each item once |
| History.WholeFeedIsReversed | apps/indexer/src/postgres.ts:283-291 | an unpaged call is the reversal |
| Derive.HistoryOfOp | apps/indexer/src/ledger.ts:317-381 | the loops list, per op kind, exactly the items of the qualifying notes: kind, owner, counterparty and amount, each once and in order |
| Listing.HistoryListed | apps/indexer/src/ledger.ts:317-381 | a deposit lists each nonzero output; a batch each payee and one total; a withdrawal what leaves; a transfer a pair per payee, or one pair over the first nonzero output of a pure self-send |
| Listing.PureSelfSendIff | apps/indexer/src/ledger.ts:354-363 | a transfer is a pure self-send if and only if it has a nonzero output and none of somebody else's |
| Listing.SumsAdd | apps/indexer/src/ledger.ts:373-378 | the totals behind those items are the plain sums |
| Derive.CheckOutputs | apps/indexer/src/ledger.ts:264-279 | each output becomes a note or an alarm, by whether it reproduces its on-chain leaf, at its place; an alarm shows the recomputed and the expected commitment |
| Derive.Open | apps/indexer/src/ledger.ts:230-289 | outputs, spent commitments, alarms, batch fill and history of one op, or the throw, told on the envelope |
| Listing.OpDerives | apps/indexer/src/ledger.ts:170-289 | the inputs are spent whether or not the outputs check out; a rejected KEM leaves one alarm only; a batch that does not fold leaves its alarm and spends, and one that does is recorded and filled whole; only a missing key throws |
| Booking.OpIsBookedOnce | apps/indexer/src/postgres.ts:238-264 | first sight books exactly the derived notes, marks, alarms and items, with the op's transaction, timestamp and the next seqs; a replay books nothing; a missing key takes only the op's key |
| Booking.MarksAreSet | apps/indexer/src/postgres.ts:253-259 | a note ends spent if it was or if an input has its commitment and no later note does, and no other note moves |
| Booking.RunsNameLatest | apps/indexer/src/ledger.ts:394-415 | over every run the commitment index names the note recorded last under it |
| Conservation.EvenForAllIff | apps/indexer/src/ledger.ts:291-381 | an op moves every owner's notes and feed by the same amount if and only if its amounts add up |
| Conservation.BookingMoves | apps/indexer/src/postgres.ts:238-264 | booking an op moves each balance by its notes and each feed total by its items |
| Conservation.BalancedStaysIff | apps/indexer/src/postgres.ts:238-264 | one op keeps the books balanced if and only if it conserves value |
| Conservation.LedgerConserves | apps/indexer/src/ledger.ts:283-381 | over every run of bookable, conserving ops each owner's signed feed total is the sum of the owner's unspent notes |
| LedgerTables.BootRestores | apps/indexer/src/postgres.ts:312-379 | booting from everything flushed restores notes in order with flags, index, feed, next seq, alarms and applied set |
| LedgerSync.FlushLands | apps/indexer/src/postgres.ts:387-424 | the durable rows plus the five buffers are the ledger |
| LedgerSync.RestageIsIdle | apps/indexer/src/postgres.ts:387-424 | staging retained buffers again over rows that have them changes nothing |
| LedgerSync.ClearedIsSynced | apps/indexer/src/postgres.ts:427-433 | after the commit the dropped buffers are not missed |
| LedgerSync.ApplyStaysSynced | apps/indexer/src/postgres.ts:238-264 | an op, even one that throws, keeps rows plus buffers equal to the read model |
| LedgerSync.MarkAgreesIff | apps/indexer/src/postgres.ts:253-256 | the one note memory marks and the UPDATE over the commitment agree if and only if every other note under it is spent |
| LedgerSync.TwinCommitmentsDiverge | apps/indexer/src/postgres.ts:397-397 | two unspent notes under one commitment for which they do not |
| LedgerSync.AlarmsKeptIff | apps/indexer/src/postgres.ts:406-416 | every alarm becomes a row if and only if no two have one (tx, detail) |
| LedgerSync.TwinRejectionsCollapse | apps/indexer/src/ledger.ts:213-226 | two ops of one transaction whose alarms become one row |
| LedgerStore.PostgresLedger.Apply | apps/indexer/src/postgres.ts:238-264 | the object's per-owner maps after an op index exactly the specified ledger |
| LedgerStore.PostgresLedger.NotesOf | apps/indexer/src/postgres.ts:267-269 | exactly the owner's notes in recording order |
| LedgerStore.PostgresLedger.HistoryPage | apps/indexer/src/postgres.ts:283-291 | a page of exactly the owner's items |
| LedgerStore.PostgresLedger.Boot | apps/indexer/src/postgres.ts:312-379 | loading ordered rows gives the booted ledger with its maps indexed |
| LedgerStore.PostgresLedger.FlushInto | apps/indexer/src/postgres.ts:387-424 | the staged rows are the specified ones, table by table |
| LedgerStore.ItemIndexed | apps/indexer/src/ledger.ts:429-451 | pushing the next seq keeps every owner's list equal to that owner's part of the feed |
| LedgerStore.ItemsExact | apps/indexer/src/ledger.ts:429-451 | an owner's list is exactly the owner's part of the feed, in order |
| LedgerStore.PositionsExact | apps/indexer/src/ledger.ts:409-413 | an owner's references are exactly the owner's notes, in recording order |
| Registry.ThrowIsNotRepeated | apps/indexer/src/modules.ts:54-77 | a transition throws exactly when it is a no-op, and a retry of the throwing log passes as a replay |
| Registry.ApplyExact | apps/indexer/src/modules.ts:54-77 | what a transition makes of every module, and when it throws |
| Registry.ApplyStaysSynced | apps/indexer/src/modules.ts:113-121 | upserted rows plus buffer stay the mirror |
| Registry.ApplyStaysRestageable | apps/indexer/src/modules.ts:110-121 | staging the buffer again is harmless at any moment |
| Registry.ModuleRegistry.ApplyRegistered | apps/indexer/src/modules.ts:54-63 | state and verdict of a registration |
| Registry.ModuleRegistry.ApplyRemoved | apps/indexer/src/modules.ts:67-77 | state and verdict of a removal |
| Registry.ModuleRegistry.Watch | apps/indexer/src/modules.ts:104-108 | registered modules plus removed ones still owing chunks |
| Registry.ModuleRegistry.FlushInto | apps/indexer/src/modules.ts:113-121 | the upserts in buffer order |
| Kem.AcceptKeeps | apps/indexer/src/kemchunks.ts:151-177 | bytes imply accepted imply hash-equal, and nothing accepted or held is lost |
| Kem.AcceptExact | apps/indexer/src/kemchunks.ts:151-177 | an accept is taken, thrown over or dropped exactly by what it finds, and moves one chunk or none |
| Kem.AttachExact | apps/indexer/src/kemchunks.ts:186-194 | the same for re-fetched bytes |
| Kem.OwedIff | apps/indexer/src/kemchunks.ts:261-267 | a module is owed an accept if and only if some batch of its has a chunk not accepted |
| Kem.AttachKeeps | apps/indexer/src/kemchunks.ts:186-194 | the same for re-fetched bytes |
| Kem.StatusNeverRegresses | apps/indexer/src/kemchunks.ts:235-241 | status moves only forward as time and chunks advance, complete exactly when all bytes are in |
| Kem.StatusExact | apps/indexer/src/kemchunks.ts:235-241 | each status as an if and only if on chunks, accepts and the grace period |
| Kem.RetryLandsIff | apps/indexer/src/kemchunks.ts:151-171 | a retried chunk is accepted if and only if the first attempt did not throw |
| Kem.AssemblyRoundTrip | apps/indexer/src/kemchunks.ts:218-228 | the assembled entries concatenate back to exactly the chunk bytes |
| Kem.ArrivalOrderIsIrrelevant | apps/indexer/src/kemchunks.ts:143-177 | accepts in any order, with unknown-batch and out-of-range noise, leave the same batches |
| KemTables.BootRestores | apps/indexer/src/kemchunks.ts:76-103 | booting from everything flushed restores every batch, accept and byte |
| KemTables.AcceptStaysSynced | apps/indexer/src/kemchunks.ts:271-291 | coalescing rows plus buffers stay the read model |
| KemTables.AttachStaysSynced | apps/indexer/src/kemchunks.ts:280-291 | recovered bytes upgrade the row |
| KemTables.RestageIsIdle | apps/indexer/src/kemchunks.ts:271-291 | restaging over landed rows changes nothing |
| KemStore.KemChunkStore.Accept | apps/indexer/src/kemchunks.ts:151-177 | state and verdict of an accept |
| KemStore.KemChunkStore.Assembled | apps/indexer/src/kemchunks.ts:218-228 | the loop's concatenation, cut into outputs |
| KemStore.KemChunkStore.Owed | apps/indexer/src/kemchunks.ts:261-267 | exactly the modules one of whose batches has an index not accepted |
| KemStore.KemChunkStore.FlushInto | apps/indexer/src/kemchunks.ts:271-291 | the specified rows |
| Feed.AddKeeps | apps/indexer/src/store.ts:146-157 | seq is the position, each log once, alarms are exactly the disclosures that did not check out |
| Feed.AlarmsExact | apps/indexer/src/store.ts:152-154 | the alarm channel is, in feed order, every verdict other than a full match and nothing else |
| Feed.NullifiersKeep | apps/indexer/src/store.ts:195-197 | the set grows by exactly the nonzero values |
| Feed.BootRestores | apps/indexer/src/postgres.ts:107-138 | replaying the stored payloads restores feed, seqs, alarms, dedup keys, nullifiers and cursor |
| Feed.AddStaysSynced | apps/indexer/src/postgres.ts:146-154 | event rows plus buffer stay the feed |
| Feed.AnnounceStaysSynced | apps/indexer/src/ingest.ts:936-944 | an announcement reaches the durable row of an entry still buffered |
| Feed.RestageIsIdle | apps/indexer/src/postgres.ts:146-170 | restaging events and nullifiers is idle |
| FeedStore.PostgresStore.AddBuffered | apps/indexer/src/postgres.ts:74-78 | state and result of addEvent, buffered on first sight |
| FeedStore.PostgresStore.AddSpent | apps/indexer/src/postgres.ts:96-101 | exactly the newly accepted nullifiers are buffered |
| FeedStore.PostgresStore.FlushInto | apps/indexer/src/postgres.ts:146-170 | the specified event and nullifier rows |
| FeedStore.PostgresStore.Boot | apps/indexer/src/postgres.ts:122-138 | the replay loop reaches the specified read model |
| Correlation.TakesItsOwn | apps/indexer/src/ingest.ts:714-768 | the queues hand each op exactly the inserts and anchor of its own group, unless a dropped op left something before them |
| Recording.SpendTakesIff | apps/indexer/src/ingest.ts:714-768 | a small op's event goes through if and only if the next inserts are its commitments in order and, from a module, the next anchor has its emitter, start, nullifier and leaf counts and root; it is then given those inserts |
| Recording.BatchTakesIff | apps/indexer/src/ingest.ts:982-992 | the same for a batch, its subtree and its anchor |
| Recording.PublishedIsLast | apps/indexer/src/ingest.ts:769-803 | a batch's material is that of the last log publishing for its transaction and start |
| Correlation.GroupPass | apps/indexer/src/ingest.ts:804-1172 | pass 2 over one group's logs is the group's effect, thrown or not, and leaves the queues owing exactly the rest |
| Correlation.GroupsIndexed | apps/indexer/src/ingest.ts:769-803 | every batch finds its own published material in the range |
| Correlation.EveryOpGetsItsOwn | apps/indexer/src/ingest.ts:683-1162 | over any concatenation of well-formed groups, pass 2 is the groups' effects, throws only if a handler does, and drains every append, subtree and anchor queue, and the withdrawal queues of transactions that announce |
| Effects.SpendIsRecordedOnce | apps/indexer/src/ingest.ts:804-1123 | one event, spelled out, over the op's own leaves, its nonzero nullifiers spent and no others, its leaves recorded, its envelope handed to the ledger if the pool emitted it; a replay adds no event, nullifier or booking |
| Effects.SpendIsBooked | apps/indexer/src/ingest.ts:804-927 | with an authority key a pool op is booked whole, as its own kind of op |
| Effects.BatchIsRecordedOnce | apps/indexer/src/ingest.ts:982-1024 | a pool batch is one event over its block if anything was published, classified by what was; its nonzero nullifier is spent and no other; the ledger's half runs exactly if an authority tail was published and there is a key; a replay does none of that |
| Effects.BatchIsBooked | apps/indexer/src/ingest.ts:1008-1022 | an opened tail is booked, and fills the block with the envelope's commitments exactly if they fold to its root |
| Effects.PrivIsRecordedOnce | apps/indexer/src/ingest.ts:1124-1162 | a consumer batch is one event, classified by what was published; its nonzero nullifier is spent and no other; its emitter owes its chunks; the block is filled exactly if the publish checks out in full; a replay does none of that |
| Effects.EventNamesItsLeaves | apps/indexer/src/ingest.ts:837-847 | the entry a transfer leaves in the feed names, in order, exactly the leaves its commitments landed at |
| Effects.DoneIsIdle | apps/indexer/src/ingest.ts:635-642 | a group already applied changes nothing, not even a buffer |
| Effects.DoneStays | apps/indexer/src/ingest.ts:635-642 | applied once, applied for good, whatever other groups do |
| Views.EffectRespectsView | apps/indexer/src/ingest.ts:804-1172 | two read models that serve the same serve the same after one more group |
| Replay.Pass1Advances | apps/indexer/src/ingest.ts:677-703 | pass 1 from anywhere inside its range, or past it, never throws and ends at the further of the two points |
| Machine.GroupLands | apps/indexer/src/ingest.ts:804-1172 | a fresh group lands as in the never-failed run |
| Gated.KeptPass | apps/indexer/src/ingest.ts:653-1172 | pass 2 over what the gate keeps of a range: dropped ops do nothing, one behind a dropped op of its transaction in the same queue throws, the others have their own effect |
| Poll.CutInPass2 | apps/indexer/src/ingest.ts:642-1193 | a gated poll that reaches pass 2 has the frontier at the end of the range and stands exactly at the groups it has handled, thrown, cut or through |
| Poll.RetryGoesThroughIff | apps/indexer/src/ingest.ts:642-1193 | a retried applyLogs goes through if and only if no op let in follows a dropped one of its transaction that draws from the same queue |
| Poll.ReplayConverges | apps/indexer/src/ingest.ts:642-1193 | a range tried and cut any number of times, then polled through, ends exactly where one uncut poll ends, down to every buffer and replay key |
| Durable.FlushLands | apps/indexer/src/persist.ts:93-117 | staging every participant makes the durable rows exactly the read model |
| Durable.UnreportedCommit | apps/indexer/src/persist.ts:79-117 | after a commit that was reported as failed the kept buffers are still right for the rows |
| Durable.FlushedIsSynced | apps/indexer/src/persist.ts:116-116 | after commitFlush the emptied buffers are right for the rows |
| Durable.RefetchStaysSynced | apps/indexer/src/ingest.ts:603-633 | bytes re-fetched at boot lose nothing, keep rows plus buffers equal to the read model in every store, and are in the rows after the next flush |
| Durable.EffectStaysSynced | apps/indexer/src/ingest.ts:804-1172 | every group, even one whose handler throws, keeps rows plus buffers equal to the read model in every store |
| Machine.CleanIsSynced | apps/indexer/src/ingest.ts:642-1193 | the never-failed run keeps its frontier at the chain's and every buffer right |
| Boot.FillsRestored | apps/indexer/src/postgres.ts:317-347 | the ledger's and the feed's fills together give back exactly the filled mirror, block sets and interiors |
| Remembered.CleanRemembers | apps/indexer/src/ingest.ts:573-582 | in every reachable state a batch is filled exactly when its B notes are in the ledger or its verified publish is in the feed |
| Reboot.BootIsCore | apps/indexer/src/ingest.ts:531-582 | booting from the rows of the never-failed run gives that run back, without buffers and forgotten replay keys |
| Reboot.BootLands | apps/indexer/src/ingest.ts:531-601 | a reboot stands at the durable point with nothing to replay |
| Crash.PollCompletesIff | apps/indexer/src/ingest.ts:460-497 | an uncut poll may persist if and only if no op let in is blocked and the mirror is not past the head |
| Crash.StepKeeps | apps/indexer/src/ingest.ts:460-601 | every step of the machine keeps the durable rows those of the never-failed run at the durable cursor, if a commit at an old head settles |
| Crash.DurableRowsAreTheCleanPrefix | apps/indexer/src/persist.ts:79-117 | over whole runs, whatever was cut, dropped by the gate, rolled back, committed unreported, crashed or rebooted, the durable rows are the derivation of the log up to the durable cursor |
| Crash.RowsStayCleanIff | apps/indexer/src/ingest.ts:460-601 | and that holds at every step of a run if and only if every commit settles |
| Crash.ForwardSettles | apps/indexer/src/ingest.ts:460-503 | every commit settles when heads never go back within a process |
| Crash.CommitIsCleanIff | apps/indexer/src/ingest.ts:484-503 | a commit that passed the head check leaves the rows of the run up to its head if and only if the groups handled past it settle |
| Stale.DumpMoves | apps/indexer/src/modules.ts:54-77 | leafless groups leave the rows as they were if and only if each module among them was known and moved an even number of times and each chunk was accepted before |
| Stale.RereadThrowsIff | apps/indexer/src/modules.ts:54-77 | re-read after a reboot, they throw if and only if some module moved an odd number of times, and else leave everything served as it was |
| Stale.RereadHeals | apps/indexer/src/modules.ts:54-77 | each poll that throws over them throws further on than the one before, so one of any d - h + 1 gets through, and everything served is as it was |
| Crash.OldHeadCosts | apps/indexer/src/ingest.ts:531-601 | the reboot after a commit at an old head serves the groups handled past it, and its first poll throws over them exactly then |
| Crash.ResumedRunIsTheCleanRun | apps/indexer/src/ingest.ts:460-504 | after any such run a poll that goes through serves what the never-failed run serves after the groups handled, with the frontier of the head |
| Crash.ServedPathsFoldAfterAnyRun | apps/indexer/src/tree.ts:292-347 | and every path into a non-opaque block folds to the contract root at that head |
| Served.CleanServes | apps/indexer/src/ingest.ts:804-1162 | over the never-failed run the feed is one event per op of the chain, in chain order and told by what the op emitted, and the spent set is exactly the ops' nonzero nullifiers |
| Served.FeedAfterAnyRun | apps/indexer/src/ingest.ts:460-601 | and so it is after any run of cuts, rollbacks, unreported commits, crashes and reboots whose commits settle, once a poll goes through |
| Served.CleanRegisters | apps/indexer/src/modules.ts:54-77 | over the never-failed run a module is registered if and only if the last op to move it registers it |
| Served.RegistryAfterAnyRun | apps/indexer/src/ingest.ts:460-601 | and so it is after any such run, once a poll goes through |
| Served.CleanBooks | apps/indexer/src/ingest.ts:804-1024 | with an authority key the ledger of the never-failed run is the ops the chain hands it, applied one after the other |
| Served.BooksAfterAnyRun | apps/indexer/src/postgres.ts:238-264 | after any such run the ledger holds the notes, items and alarms of those ops; if each could be booked and conserved value, every owner's activity nets to the owner's unspent notes |
| Crash.BootCheckPasses | apps/indexer/src/ingest.ts:583-594 | the root and leaf count check at the end of a boot never fires |
| Heal.OldHeadHeals | apps/indexer/src/ingest.ts:460-601 | after that reboot one of any d - h + 1 uncut polls past the groups committed early goes through, and the commit after the first that does leaves the rows of the never-failed run |
| Premises.ChainGrows | apps/indexer/src/ingest.ts:642-1193 | a chain stays one when the next group is new, truthful about the tree and finds its handler content |
| Premises.AnyOpsAreAChain | apps/indexer/src/ingest.ts:677-1162 | any balanced list of registrations, removals, consumer deposits and batches that fits the tree is a chain every handler accepts, inserting exactly its leaves and batches |
| Premises.ToldApartIsHonest | apps/indexer/src/ingest.ts:677-1162 | and an honest one if the ops of each transaction can be told apart |
| Persist.Participants.PersistAtomically | apps/indexer/src/persist.ts:93-117 | either everything is staged, committed and dropped, or every buffer is intact over rows rolled back or, unreported, in force |
| Indexer.Indexer.Admit | apps/indexer/src/ingest.ts:653-675 | the gate loop keeps exactly the specified logs |
| Indexer.Indexer.DriveTree | apps/indexer/src/ingest.ts:683-703 | the pass-1 loop over the tree object |
| Indexer.Indexer.SpendOn | apps/indexer/src/ingest.ts:804-927 | the small-op branches over the store objects, with what they record spelled out |
| Indexer.Indexer.DisburseOn | apps/indexer/src/ingest.ts:982-1024 | the Disbursed branch, with the entry, the nullifier and the ledger half spelled out on the log |
| Indexer.Indexer.DisbursePrivOn | apps/indexer/src/ingest.ts:1124-1162 | the DisbursedPriv branch, with the entry, the nullifier, the owed chunks and the fill spelled out on the log |
| Indexer.Indexer.ApplyLogs | apps/indexer/src/ingest.ts:642-1193 | the loops over the objects leave exactly the specified stores and queues, thrown or not |
| Watch.GateIsSound | apps/indexer/src/ingest.ts:643-675 | no handler sees a pool event of another emitter, or a module event of one neither watched nor registered by then |
| Watch.GateIsExact | apps/indexer/src/ingest.ts:643-675 | the gate keeps exactly the pool's logs of the pool's families and the modules' logs of the modules' families, from modules watched or registered by the pool no later than the log, each once and in order |
| Watch.WatchedIff | apps/indexer/src/modules.ts:104-108 | watched are the registered modules and those, once registered, that are owed an accept |
| Watch.GoneModuleIsDropped | apps/indexer/src/ingest.ts:643-675 | a module neither registered nor owed an accept gets nothing past the gate unless the range registers it |
| Watch.GateAdmitsAllIff | apps/indexer/src/ingest.ts:653-675 | a range gets in whole if and only if every emitter is entitled at its place |
| Watch.EverybodyEntitledGetsIn | apps/indexer/src/ingest.ts:643-675 | on a pass from the cursor's state every log of an entitled emitter is admitted, modules registered or removed mid-range included |
| Watch.KeptIsScanned | apps/indexer/src/ingest.ts:373-384 | what the gate admits lies inside the filter of the two scans |
| Fetch.PollSeesTheRange | apps/indexer/src/ingest.ts:373-386 | the two scans, merged and gated, are the gated content of the blocks and the gated range of the chain |
| Wedge.FailedPersistWedgesIff | apps/indexer/src/ingest.ts:460-517 | after a poll whose persist failed the process is wedged if and only if, with the watch-set as that range left it, an op let in follows a dropped one in its transaction and queue |
| Wedge.WedgedForGood | apps/indexer/src/ingest.ts:460-517 | from then on, over any run short of a crash, no poll goes through and nothing is committed |
| Wedge.RemovedModuleWedges | apps/indexer/src/ingest.ts:643-675 | an honest chain and a run that get there |
| Wedge.RestartUnwedges | apps/indexer/src/ingest.ts:531-601 | after a restart the first poll goes through |
| Retry.UnbookedForGood | apps/indexer/src/ingest.ts:817-827 | an op whose ledger half threw is never booked by the retry; one that did not throw is booked whole |
| Retry.ThrownWithdrawalStaysBareIff | apps/indexer/src/ingest.ts:906-944 | a pool withdrawal's entry ends with its announcement if and only if its ledger half did not throw or the announcement was no stealth one |
| Scan.Scanner.Walk | apps/indexer/src/ingest.ts:312-351 | bisection ends, within 2n - 1 queries for n blocks, with the range's logs or a failed one-block query |
| Scan.ScanRange | apps/indexer/src/ingest.ts:310-361 | every block's logs exactly once and in order, or a failure pinned to one block |
| Scan.LogsHold | apps/indexer/src/ingest.ts:310-361 | a scan is after exactly what the blocks of its range hold of its addresses |
| Scan.MergeIsTheChain | apps/indexer/src/ingest.ts:379-386 | the two scans sorted together are the chain's logs of both address sets |
| Witness.WitnessHost.Fill | prover/prover_service/witness.py:341-374 | at least one more byte in the carry buffer, or the worker is gone, and the client is blamed only over an assert on stderr |
| Witness.WitnessHost.ReadLineUntil | prover/prover_service/witness.py:326-332 | exactly the next line of the stream, however the pipe cut it |
| Witness.WitnessHost.ReadExact | prover/prover_service/witness.py:334-339 | exactly the next n bytes, the rest left in place |
| Witness.WitnessHost.DrainStderrOnce | prover/prover_service/witness.py:376-385 | the ring is the stderr read so far from 64 KiB back, or from the start, to the byte read last |
| Witness.WitnessHost.Death | prover/prover_service/witness.py:295-311 | the client is blamed exactly if the assert occurs in the last 64 KiB of stderr read by then |
| Witness.WitnessHost.Start | prover/prover_service/witness.py:170-212 | a handshake with two positive counts, or no process left behind |
| Witness.WitnessHost.ComputeLive | prover/prover_service/witness.py:265-283 | result and bytes consumed depend on the stream alone; a vector of another length is never returned |
| Witness.WitnessHost.Compute | prover/prover_service/witness.py:247-283 | result and bytes taken are those of the old worker's stream from where it was, or of a new worker's from its handshake; with no worker left the client is blamed only over an assert on stderr |
| Witness.LastOfLast | prover/prover_service/witness.py:382-384 | trimming the ring as one goes keeps what trimming at the end would |
| Witness.ClassifyDeath | prover/prover_service/witness.py:119-137 | the client's fault exactly if the assert line occurs in what is left of stderr |
| Witness.OutcomeExact | prover/prover_service/witness.py:265-283 | whose fault an answer is, what vector it is, and how much of the stream it takes, each exactly by header line and length |
| Witness.NextMessageIsIntactIff | prover/prover_service/witness.py:276-283 | after one answer the stream stands at the next message if and only if the payload was empty or of the promised length |
| Witness.PromisedVectorsAllArrive | prover/prover_service/witness.py:326-339 | a worker that keeps its promise is read message by message |

## Left out

- Poll.CutInPass2: a poll is aborted between pass-1 logs and between op groups. A group's own handler is one synchronous step; what its throw leaves behind is `Retry`.
- Crash.DurableRowsAreTheCleanPrefix: the re-fetch of missing chunk bytes at boot is not a step, because the run that never failed does not have those bytes; what it does to rows and buffers is `Durable.RefetchStaysSynced`.
- Mirror.ApplyAttach: the padding a refused attach has inserted is in the object's frontier index only; `Tree.MirrorTree.ApplyAttach` states it.
- Watch.KeptIsScanned: logs without an emitter address, which only synthetic sequences have, are not modelled.
- Correlation.EveryOpGetsItsOwn: a group's logs are contiguous, as one atomic op emits them.
- Witness.WitnessHost.Fill: time is a budget that every pass of the select loop spends; no byte timing is modelled.
- Witness.WitnessHost.Start: missing artifact files and a failing spawn are not modelled.
- Indexer.Indexer.SpendOn: the eight small-op branches and the two ten-input ones are one branch told apart by kind, since they differ in arity, ledger and anchor only; ciphertext slices and view tags are one opaque payload.
- Kem batches and feed entries mutated through shared references are positions and ids into the owning collection.
- PortalRegistry, NameRegistry and the portal factories' Swept and Announced logs: one more participant each, with guarantees that rest on database indexes.
- projection.ts, alarms.ts, host.ts, HTTP routes, console output: table lookups and rendering.
- Poseidon, keccak, ML-KEM, envelope decryption: uninterpreted, or already applied to what the model is handed.
- RPC transport, timestamps, SQL text and pooling: an oracle that may fail, and tables as finite maps.
- flatten_ordered and the worker script: input shaping on the other side of the pipe.
- The Solana rail's ingest loop: only the mirror's per-op append, which it drives, is modelled.
