# Proofs about the Ronin node

Ronin is a fork of go-ethereum. This project models the parts of the node where state is updated step by step and
must stay consistent, and proves that it does, or exactly when it does.

| file | models | what is proved |
|---|---|---|
| `HeaderTree.dfy` | the stored headers | paths and total difficulties of a tree of headers: the reference that the indexes are compared with |
| `HeaderChain.dfy` | `core/headerchain.go` | header import, rewind and ancestor lookup keep the number index equal to the path to the head |
| `ChainRows.dfy` | the rows derived from a head block | what a reorganisation does to index, lookup and heads, and what a client of the log feeds holds after it |
| `BlockChain.dfy` | `core/blockchain.go`, import | block import, fork choice and reorganisation over whole runs |
| `Rewind.dfy` | `core/blockchain.go`, rewind | safety of every point where a rewind can be cut off, where it ends, and exactly when it panics |
| `TrieGC.dfy` | state trie references | references balance, recent states stay readable, nothing dangles, and when references equal queue entries |
| `EventFeed.dfy` | `event/feed.go` | a send serves every subscription exactly once; no interleaving panics |
| `ChainIndexer.dfy` | `core/chain_indexer.go` | stored section heads form one chain, however the chain changes in between |
| `World.dfy`, `SetCode.dfy`, `StateTransition.dfy`, `StateProcessor.dfy` | transaction and block processing | conservation of money and gas, EIP-7702 authorizations |
| `BlockHash.dfy` | `core/evm.go`, BLOCKHASH | the memoised lookup answers like a plain walk |
| `DerivationPath.dfy` | `accounts/hd.go` | printing and parsing are inverse |
| `Options.dfy` | | a value that may be missing |

`dafny verify dfyconfig.toml` checks everything.

## Conventions

Hashes, transactions and logs are numbers; that two different headers do not share a hash is a hypothesis where it is
needed (`NoCollision`, `SameBlock`). Random choices are boolean parameters named `coin`. Code outside the modelled
files (the EVM, signature recovery, the consensus engine, number parsing, the trie contents) is a function parameter
or an input, with the hypothesis it has to meet written out. Loops work on values, and the methods of the classes
assign their results, so that the intermediate states never depend on the heap.

## What turned out to be conditional

* A header batch whose headers are all known already, and which wins the fork choice, moves the head without writing
  the batch's index rows. `HeaderChain.WriteHeaders` states that the index stays exact if and only if this does not
  happen (`AllKnownWin`), and `KnownBranchLosesItsRow` is an input for which it happens.
* A reorganisation to a block that is lower than the old head and is built on the canonical chain rewrites no block
  before it deletes rows, and so deletes from the old head's number upwards: the old rows above the new head stay.
  `SwitchedDerived` and `ImportBlock` state that the rows are those of the new head if and only if this is not the
  case (`Stale`, and `StaleStep` in terms of the block and the database before the import);
  `HeavyBlockLeavesAStaleRow` is an input for which it is.
* Writing a block that is canonical already announces its logs a second time. A client of the feeds is right after an
  import if and only if this does not happen (`StepClient`, with `Repeats` in terms of the block and the database
  before); `HeadWrittenTwiceRepeatsItsLogs` is an input.
* A rewind or repair with a requested root panics when it leaves a block that has a state for a parent whose body is
  missing. `SeekNil` says exactly on which chains a search does so: some block has a state, is not the requested one
  and lacks its parent's body, and the search gets down to it. `SetHeadBeyondRoot` panics if and only if a search does
  so, and `RepairPanics` is an input.
* References to a state root equal its queue entries all along a run, if and only if no write of the run does one of
  two things (`RunEqual`): it enters an unchanged state whose root is only on disk, or it flushes a root with entries,
  and in both cases an entry of the root stays (`Parts`). `PushEqual`, `FlushEqual` and `WriteEqual` are the steps, and
  `FlushedRootIsUndercounted` is an input. The root stays readable in any case.
* A checkpoint that is added while a section is processed need not stay: committing the section makes it the last one
  stored (`FinishUpdate`), which is below the checkpoint exactly if the checkpoint is above the section.
  `CheckpointIsUndone` is an input.
* The base fee for the treasury passes through a signed 64-bit number; it is right exactly below 2^63 gas
  (`BurnIsIntended`). `TreasuryPays` is what happens at 2^63.
* The intrinsic gas adds its lists without an overflow check; it is the sum exactly when that fits in 64 bits
  (`IntrinsicCostIs`), and `ListsWrap` is an input for which it is not. The token count of the data floor wraps in the
  same way (`FloorCostIs`, `FloorWraps`).

## Model

| member | source | states |
|---|---|---|
| `HeaderTree.DropRun` | core/headerchain.go:242-249 | rows are deleted from a number up to the first gap, and no others |
| `HeaderChains.AddAllRooted` | core/headerchain.go:169-202 | storing a batch whose first parent is known keeps every header on a path from genesis |
| `HeaderChains.FillTables` | core/headerchain.go:151-202 | the import loop stores exactly the batch with the exact total difficulties, and splits it into a known prefix and an inserted suffix |
| `HeaderChains.OverwriteStale` | core/headerchain.go:250-262 | walking down until the index agrees leaves the whole path to the parent in the index and touches nothing above |
| `HeaderChains.WriteRows` | core/headerchain.go:267-278 | one row per header, no other row changes |
| `HeaderChains.PrepareRows` | core/headerchain.go:241-273 | what is written before the inserted headers: the parent's path, the known headers with the head marker on the last of them, and only old rows above |
| `HeaderChains.MarkCanonical` | core/headerchain.go:234-282 | with inserted headers the index becomes exactly the path to the last header; without, the rows of the batch are missing |
| `HeaderChains.CanonicalNeverWins` | core/headerchain.go:215-230 | no header on the path to the head wins the fork choice against the head |
| `HeaderChains.EndsElsewhere` | core/headerchain.go:235-282 | a winning batch without inserted headers leaves the row of its last header wrong |
| `HeaderChains.ImportSound` | core/headerchain.go:231-234 | after an import outside the known-header case the new head has no known child, which the shortcut for extending batches relies on |
| `HeaderChains.ImportRows` | core/headerchain.go:151-303 | the import is the specified change of tree and head, and the rows are exact if and only if it is not a winning batch of known headers |
| `HeaderChains.HeaderChain.constructor` | core/headerchain.go:82-119 | a new chain is its genesis header |
| `HeaderChains.HeaderChain.Open` | core/headerchain.go:82-119 | an existing chain is what its database says, with the marked head |
| `HeaderChains.HeaderChain.WriteHeaders` | core/headerchain.go:151-303 | the same for the object, with the reported status, ignored and imported counts |
| `HeaderChains.LeftoverLevels` | core/headerchain.go:577-585 | finds every number above the head at which something is stored |
| `HeaderChains.GatherLevels` | core/headerchain.go:588-604 | marks exactly the headers of the given numbers, on all branches |
| `HeaderChains.RewoundExact` | core/headerchain.go:543-609 | what survives a rewind is the exact database of the rewound chain |
| `HeaderChains.RewindRows` | core/headerchain.go:537-614 | the loop of a rewind without hooks leaves the exact database of the rewound chain |
| `HeaderChains.HeaderChain.SetHead` | core/headerchain.go:537-614 | the same for the object |
| `HeaderChains.NextSound` | core/headerchain.go:151-303 | every legal import and every rewind keeps headers rooted and the head childless |
| `HeaderChains.RunFrom` | core/headerchain.go:151-303 | so does every run of them |
| `HeaderChains.HeaderChain.Run` | core/headerchain.go:151-303 | over every run of legal imports and rewinds the object stays exact and equals the specified run |
| `HeaderChains.ImportHeaviest` | core/headerchain.go:215-230 | imports alone keep a head of maximal total difficulty and, among those, minimal number |
| `HeaderChains.RunHeaviest` | core/headerchain.go:215-230 | over every run of imports |
| `HeaderChains.NthParentOnPath` | core/headerchain.go:404-436 | following n parent links leads to the header n numbers below on the path |
| `HeaderChains.CanonicalAncestor` | core/headerchain.go:416-422 | reading the index at the lower number is the same as following the links, for a canonical header |
| `HeaderChains.FindAncestor` | core/headerchain.go:404-436 | the lookup answers like the plain walk, or nothing exactly when the budget is too small or a header is missing, and spends exactly the steps off the canonical chain |
| `HeaderChains.HeaderChain.GetAncestor` | core/headerchain.go:404-436 | the same for the object |
| `HeaderChains.KnownBranchLosesItsRow` | core/headerchain.go:235-282 | an input on which an import of known headers leaves the index wrong |
| `ChainRows.MergeLogs` | core/blockchain.go:2390-2402 | the lists joined, in order or in reverse order of the lists |
| `ChainRows.MergedDown` | core/blockchain.go:2363-2402 | lists collected on the way down and merged in reverse are the logs of the stretch, oldest first |
| `ChainRows.AnnounceDropped` | core/blockchain.go:2509-2514 | every dropped block is announced once, oldest first |
| `ChainRows.Announce` | core/blockchain.go:2503-2514 | a reorg announces the logs of the dropped blocks, those of the revived blocks and the dropped blocks, each oldest first |
| `ChainRows.FollowAnnounced` | core/blockchain.go:2503-2508 | a client with the logs of the old path holds, after the announcements, those of the new path without its head |
| `ChainRows.FollowSwitch` | core/blockchain.go:2503-2514 | with the head's logs it holds those of the new path, if and only if the new head was not canonical before or has no logs |
| `ChainRows.ExtendedDerived` | core/blockchain.go:985-1012 | writing a child of the head as head keeps index, lookup and heads those of the head |
| `ChainRows.BranchRows` | core/blockchain.go:2467-2469 | writing a branch block by block writes its index rows and no others |
| `ChainRows.BranchLookup` | core/blockchain.go:2467-2469 | it enters its transactions at their blocks and leaves the other entries alone |
| `ChainRows.BatchWhole` | core/blockchain.go:2467-2469 | after each block that is written as head, the index up to it is the new path |
| `ChainRows.DeletedWhole` | core/blockchain.go:2488-2498 | the deletions leave the index whole up to the head block, and with its row up to the new head |
| `ChainRows.GoneIs` | core/types/transaction.go:602-617 | the deleted entries are those of transactions that the old branch has and the rewritten blocks have not |
| `ChainRows.RowsAfterRewrite` | core/blockchain.go:2488-2495 | if a block was rewritten, deleting above the rewritten part leaves the index of the new path |
| `ChainRows.RowsAfterNothing` | core/blockchain.go:2488-2495 | if none was, nothing is deleted, and the index is right exactly if the old chain is not higher |
| `ChainRows.SwitchedLookup` | core/blockchain.go:2483-2486 | after a reorg and the writing of the new head the lookup holds exactly the transactions on the new path |
| `ChainRows.SwitchedIndex` | core/blockchain.go:2467-2498 | the index is that of the new path if and only if the new head does not cut the old chain short |
| `ChainRows.SwitchedDerived` | core/blockchain.go:2348-2498 | so are all rows together |
| `BlockChains.DescendOld` | core/blockchain.go:2404-2411 | walks the old branch down, gathering its blocks, transactions and logs |
| `BlockChains.CollectFork` | core/blockchain.go:2404-2448 | both walks meet at the highest common block, with everything above it gathered |
| `BlockChains.WalksFork` | core/blockchain.go:2426-2448 | below the meeting block the two paths are the same, above it they differ at every number |
| `BlockChains.WriteBranch` | core/blockchain.go:2467-2480 | the rows of the new branch except its head, with its transactions and logs, and the rows after each of its batches |
| `BlockChains.DeleteUseless` | core/blockchain.go:2481-2498 | deletes the entries of lost transactions and the rows above the head block up to the first gap |
| `BlockChains.Reorg` | core/blockchain.go:2348-2516 | finds the fork, leaves the reorganised rows and announces what was dropped and revived |
| `ChainRows.ReorganisedHolds` | core/blockchain.go:2467-2498 | after a reorg the index holds the new head exactly if it did before and no block was rewritten below it; then the fast and header heads are where they were |
| `BlockChains.BranchHeads` | core/blockchain.go:985-1012 | a new head after a reorg takes the fast and header heads along, unless the old index had it and its parent is on the old path: then both stay |
| `BlockChains.ChildHeads` | core/blockchain.go:985-1012 | a child of the head block takes them along exactly if the old index does not hold it at its number |
| `BlockChains.BatchesWhole` | core/blockchain.go:2467-2469 | each batch of a reorg leaves the index equal to the path of the head block up to that block |
| `BlockChains.AdoptHead` | core/blockchain.go:1702-1718 | the block becomes the head, and the rows are its own if and only if it does not cut the old chain short; the fast and header heads stay exactly if the block was canonical on a canonical parent; wherever the program is cut off, the index up to the head block is its path |
| `BlockChains.ReorgNeeded` | core/blockchain.go:1550-1581 | the lexicographically better rank wins; equal ranks are decided by the local miner's blocks and the coin |
| `BlockChains.OutranksTransfer` | core/blockchain.go:1550-1581 | replacing a head by a block that it does not outrank keeps every block that did not outrank the head below the new head |
| `BlockChains.StoredFull` | core/blockchain.go:1608-1633 | storing an acceptable block keeps headers rooted, difficulties exact and transactions unrepeated |
| `BlockChains.StoreAndChoose` | core/blockchain.go:1608-1702 | the block is stored, everything stored before is unchanged, and it is chosen exactly if it has the better rank or the tie-break |
| `BlockChains.CutShortIsStale` | core/blockchain.go:2488-2495 | a block cuts the old chain short exactly if its parent is on it and the head is higher than the block |
| `BlockChains.ImportBlock` | core/blockchain.go:1595-1747 | what an import stores, chooses and announces; the rows stay exact if and only if it does not cut the old chain short; a side block changes no row, and where the fast and header heads go |
| `BlockChains.BlockChain.constructor` | core/blockchain.go:281-360 | a new chain is its genesis block |
| `BlockChains.BlockChain.Open` | core/blockchain.go:281-360 | an existing chain is its database |
| `BlockChains.BlockChain.WriteBlockWithState` | core/blockchain.go:1595-1747 | the same for the object, with the announcements appended to those made before |
| `BlockChains.BlockChain.WriteKnownBlock` | core/blockchain.go:1519-1529 | a stored block becomes the head without a fork choice, with the same condition on the rows and the announcements of the switch; the fast and header heads stay where they are if it was canonical on a canonical parent, and follow it otherwise |
| `BlockChains.ImportBlocks` | core/blockchain.go:1595-1747 | imports one after the other are a run, so that the statements about runs hold of them |
| `BlockChains.BlockChain.WriteBlocks` | core/blockchain.go:1595-1747 | the same for the object: its database is the end of the run and it has announced what the run announces |
| `BlockChains.StepBest` | core/blockchain.go:1702-1718 | an import keeps the head the best stored block |
| `BlockChains.RunBest` | core/blockchain.go:1702-1718 | over every run |
| `BlockChains.RunNeverReturns` | core/blockchain.go:1702-1718 | a block that the head outranks, such as a head that it replaced, is never head again in any run |
| `BlockChains.RunExact` | core/blockchain.go:1595-1747 | over every run in which no new head cuts the old chain short, index, lookup and heads are those of the head block |
| `BlockChains.StepClient` | core/blockchain.go:1726-1746 | a client of the feeds holds the logs of the canonical path after an import, if and only if no block is announced again |
| `BlockChains.RunClient` | core/blockchain.go:1726-1746 | over every run without repeated announcements |
| `BlockChains.HeavyBlockLeavesAStaleRow` | core/blockchain.go:2488-2495 | an input on which a row above the new head survives |
| `BlockChains.HeadWrittenTwiceRepeatsItsLogs` | core/blockchain.go:1726-1746 | an input on which the client is wrong |
| `Rewinds.FindBlock` | core/blockchain.go:722-772 | the loop of updateFn is the specified search, and ends |
| `Rewinds.SeekLands` | core/blockchain.go:733-772 | the block found is an ancestor or the start, has a body, and is genesis or has a usable state; without a requested root one is always found |
| `Rewinds.SeekNil` | core/blockchain.go:733-772 | with a requested root, the search ends in a missing block if and only if it comes down to a block with a state, not the requested one, over a missing body |
| `Rewinds.SeekComplete` | core/blockchain.go:771-771 | so it does not on a chain with all its bodies |
| `Rewinds.SeekRestored` | core/blockchain.go:759-768 | recovering states on the way does not change what later searches find |
| `Rewinds.SeekHighest` | core/blockchain.go:737-772 | with all bodies it lands on the highest block with state if that is not below the pivot, else on genesis |
| `Rewinds.SeekBelowRoot` | core/blockchain.go:734-772 | with a requested root, on the highest block with state at or below the first block that carries the root, whose number is reported, or on genesis if the pivot is in the way before or after it |
| `Rewinds.UpdateHeads` | core/blockchain.go:722-818 | the block and fast heads stay on the chain, no higher than the given header; a moved block head is genesis or has its state, and which state was recovered |
| `Rewinds.Round` | core/headerchain.go:543-604 | one round lowers all three markers by one header and marks everything above for deletion |
| `Rewinds.RewoundConsistent` | core/headerchain.go:588-609 | with the deletions written the database is that of the rewound chain, all markers on it, none above the header head |
| `Rewinds.RewindBlocks` | core/blockchain.go:820-850 | at every point where the program may be cut off the markers name stored data; the end is the rewound chain; it panics exactly if a search of the rounds ends in a missing block, and otherwise the block head is what the rounds come to, and the fast head the block at the new head, unless it was not above that, or genesis if a body is missing in between |
| `Rewinds.FastNext` | core/blockchain.go:790-805 | one round keeps the fast head so |
| `Rewinds.RoundsEnd` | core/headerchain.go:543-604 | what the rounds come to is what the last one finds, or one that puts the block head below the rest or ends in a missing block; or the block head was below them all |
| `Rewinds.RoundsSettle` | core/headerchain.go:543-604 | without a requested root, with all bodies and no pivot, it is the highest block with state |
| `Rewinds.Repair` | core/blockchain.go:840-845 | the repair leaves headers alone and moves the block head to where the search ends and the fast head no higher than the old block head, safe after each of its two writes |
| `Rewinds.BlockStore.constructor` | core/blockchain.go:281-360 | a new store is its genesis block |
| `Rewinds.BlockStore.Open` | core/blockchain.go:281-360 | an existing store is its database |
| `Rewinds.BlockStore.SetHeadBeyondRoot` | core/blockchain.go:708-861 | both ways for the object: when it panics, which takes a requested root, and where the block and fast heads and the bodies end with and without one |
| `Rewinds.BlockStore.SetHead` | core/blockchain.go:695-698 | never panics, settles on the highest block with state if nothing is missing, and where the fast head ends |
| `Rewinds.RepairPanics` | core/blockchain.go:393-400 | an input on which a repair at startup panics |
| `TrieGC.Pop` | common/prque/prque.go:50-60 | an entry with the least block number, the others stay |
| `TrieGC.PushBalanced` | core/blockchain.go:1649-1651 | inserting, referencing and entering a root keeps references and entries balanced |
| `TrieGC.PushEqual` | core/blockchain.go:1649-1651 | from references equal to entries it keeps them so, unless the state is unchanged and its root is not in memory |
| `TrieGC.PopBalanced` | trie/triedb/hashdb/database.go:297-335 | so does dereferencing a popped root |
| `TrieGC.FlushBalanced` | trie/triedb/hashdb/database.go:474-552 | so does moving any roots to disk |
| `TrieGC.FlushEqual` | trie/triedb/hashdb/database.go:474-552 | from references equal to entries it keeps them so exactly for roots that stay or have no entry |
| `TrieGC.EnteredIsReadable` | core/blockchain.go:1649-1699 | a root with an entry is in memory or on disk |
| `TrieGC.FlushedRootIsUndercounted` | trie/triedb/hashdb/database.go:245-257 | three writes after which a root that was flushed and came back has two entries and one reference |
| `TrieGC.Collect` | core/blockchain.go:1690-1698 | the loop removes exactly the entries up to the chosen number, and as many references of each root, as far as there are any |
| `TrieGC.WriteState` | core/blockchain.go:1649-1699 | what a write makes of references, disk and entries |
| `TrieGC.WriteEqual` | core/blockchain.go:1649-1699 | a write keeps references equal to entries if and only if it does not miss the root or leaves no entry of it |
| `TrieGC.RunEqual` | core/blockchain.go:1649-1699 | references equal entries all along a run if and only if no write parts them |
| `TrieGC.Release` | core/blockchain.go:1087-1089 | releasing all entries leaves nothing in memory |
| `TrieGC.KeepsNext` | core/blockchain.go:1649-1699 | every entry within the window of the highest block written is kept, as often as it was written, however blocks are ordered |
| `TrieGC.Chain.constructor` | core/blockchain.go:315-315 | a new chain has no entries |
| `TrieGC.Chain.WriteTrie` | core/blockchain.go:1649-1699 | the same for the object: references, disk and entries; above the window no entry at or below number minus window remains and every later one does |
| `TrieGC.Chain.WriteAll` | core/blockchain.go:1649-1699 | blocks one after the other are a run; one whose parent state is missing changes nothing |
| `TrieGC.Chain.RecentIsReadable` | core/blockchain.go:1649-1699 | the state of every block within the window can be read |
| `TrieGC.Chain.Stop` | core/blockchain.go:1065-1093 | nothing dangles after the release |
| `EventFeeds.Find` | event/feed.go:213-220 | the first index of the channel, or -1 exactly if it is absent |
| `EventFeeds.SwapParts` | event/feed.go:228-232 | deactivating a case moves exactly that subscriber from the unserved prefix to the rest |
| `EventFeeds.DeletePrefix` | event/feed.go:171-177 | deleting an active case shrinks the prefix by exactly that subscriber |
| `EventFeeds.DeleteSuffix` | event/feed.go:171-177 | deleting a served case leaves the prefix alone |
| `EventFeeds.AppliedBalanced` | event/feed.go:155-182 | every delivery and every removal keeps unserved, served and departed subscribers accounted for |
| `EventFeeds.ReplayBalanced` | event/feed.go:155-182 | so does every sequence of them |
| `EventFeeds.Feed.constructor` | event/feed.go:60-65 | a new feed has only the removal case |
| `EventFeeds.Feed.Subscribe` | event/feed.go:72-92 | the channel enters the inbox |
| `EventFeeds.Feed.FindCase` | event/feed.go:213-220 | the loop finds the first case of the channel |
| `EventFeeds.Feed.DeleteCase` | event/feed.go:223-225 | the cases above the index move down in place |
| `EventFeeds.Feed.Deactivate` | event/feed.go:228-232 | the swap in place that shrinks the prefix |
| `EventFeeds.Feed.MergeInbox` | event/feed.go:134-137 | the inbox is appended to the cases and emptied |
| `EventFeeds.Feed.Remove` | event/feed.go:103-124 | with no send in progress one entry of the channel goes, from the inbox first |
| `EventFeeds.Feed.TryAll` | event/feed.go:156-165 | the fast path, whichever channels accept |
| `EventFeeds.Feed.SelectOne` | event/feed.go:169-181 | one delivery or one removal, whichever comes |
| `EventFeeds.Feed.Send` | event/feed.go:128-190 | what a send does is a lawful sequence of deliveries and removals that ends with nobody unserved, and the count is its deliveries |
| `EventFeeds.SendRefines` | event/feed.go:128-190 | whatever a send does is one of the interleavings: the state machine comes to the same cases and books |
| `EventFeeds.SendDelivers` | event/feed.go:128-190 | so every subscription present after the merge and not removed before its turn is served exactly once, and the final cases are the served ones that stayed |
| `EventFeeds.RemoverFinds` | event/feed.go:116-123 | a remover that passed the inbox check always finds its case |
| `EventFeeds.NextSafe` | event/feed.go:72-190 | no atomic step panics, and each keeps entries equal to live subscriptions plus pending removers |
| `EventFeeds.EveryInterleavingSafe` | event/feed.go:72-190 | in every interleaving from a new feed |
| `EventFeeds.SendEnds` | event/feed.go:128-190 | in every interleaving a send that ends has served exactly those it began with that did not leave before |
| `ChainIndexers.ProcessSection` | core/chain_indexer.go:388-417 | a section is processed exactly if every header is there, on top of the one before and accepted; its head is then the sectionSize-th descendant of the head it was started on, whatever each read saw |
| `ChainIndexers.SectionEndIs` | core/chain_indexer.go:424-424 | the last block of a section |
| `ChainIndexers.CanonicalAncestor` | core/chain_indexer.go:419-429 | on a linked chain the canonical hash k numbers below is the k-th ancestor |
| `ChainIndexers.LastVouchesForAll` | core/chain_indexer.go:419-429 | if stored heads form a chain and the last is canonical, all are |
| `ChainIndexers.ChainedNext` | core/chain_indexer.go:350-353 | committing a section on its predecessor keeps one chain |
| `ChainIndexers.VerifyRows` | core/chain_indexer.go:422-429 | rolls back to the highest section whose head is canonical when it is compared, not below the checkpoint, with a chain that may change between two comparisons |
| `ChainIndexers.ChainIndexer.constructor` | core/chain_indexer.go:103-122 | a new indexer has no sections |
| `ChainIndexers.ChainIndexer.Load` | core/chain_indexer.go:471-476 | an indexer that starts on the database of an earlier one has its sections |
| `ChainIndexers.ChainIndexer.SetValidSections` | core/chain_indexer.go:479-491 | removes exactly the heads from the new count up |
| `ChainIndexers.ChainIndexer.AddCheckpoint` | core/chain_indexer.go:130-143 | at any time: the checkpoint is the new start of the chain of heads, unless it is below what is there |
| `ChainIndexers.CheckpointIsUndone` | core/chain_indexer.go:348-353 | an input on which a checkpoint that was added during processing is dropped again |
| `ChainIndexers.ChainIndexer.ReorgedTo` | core/chain_indexer.go:247-275 | exactly the sections that end at or below the new head stay stored and known, except that the checkpoint stays stored; nothing is known if the checkpoint does not end there |
| `ChainIndexers.ChainIndexer.ExtendedTo` | core/chain_indexer.go:276-299 | known sections never get fewer; new ones have their confirmations and are not below the checkpoint, and the first of them need the checkpoint's hash to be canonical; then all that have their confirmations are known |
| `ChainIndexers.ChainIndexer.VerifyLastHead` | core/chain_indexer.go:422-429 | the roll back, for the object |
| `ChainIndexers.ChainIndexer.Sections` | core/chain_indexer.go:434-440 | after the check every stored section from the checkpoint up is canonical on the chain that the last head was compared with |
| `ChainIndexers.ChainIndexer.BeginUpdate` | core/chain_indexer.go:317-338 | verifies, each comparison on the chain of its moment, picks the next section and remembers the head below it |
| `ChainIndexers.ChainIndexer.ResetFails` | core/chain_indexer.go:391-395 | a backend that refuses drops all sections |
| `ChainIndexers.ChainIndexer.FinishUpdate` | core/chain_indexer.go:348-369 | the section is committed exactly if it was processed and the head below it is still the one it was processed on; then it is the last one stored, with no gap below it; otherwise the stored heads are verified |
| `ChainIndexers.ChainIndexer.Run` | core/chain_indexer.go:243-440 | any interleaving of the critical sections with a changing chain keeps the stored heads one chain |
| `SetCode.Validate` | core/state_transition.go:665-693 | a tuple is valid exactly if chain, nonce, signature, code and account nonce fit |
| `SetCode.ApplyAuthorizations` | core/state_transition.go:591-596 | the loop applies the list in order, skipping what does not fit |
| `SetCode.NonceCounts` | core/state_transition.go:696-720 | an account's nonce grows by one per tuple of its own that takes effect |
| `SetCode.ConsecutiveNonces` | core/state_transition.go:665-720 | these tuples use consecutive nonces from the account's own |
| `SetCode.NoReplay` | core/state_transition.go:665-720 | no tuple takes effect twice |
| `SetCode.FinalAccount` | core/state_transition.go:696-720 | the last effective tuple sets the code, to a delegation to its address or to none for the zero address; accounts with other code are untouched; no balance changes |
| `SetCode.RefundGrowth` | core/state_transition.go:701-706 | the refund grows by the price difference for exactly the effective tuples whose account exists when their turn comes |
| `SetCode.TotalUnchanged` | core/state_transition.go:696-720 | authorizations move no money |
| `StateTransitions.GasPool.AddGas` | core/gaspool.go:29-35 | adds, or overflows and adds nothing |
| `StateTransitions.GasPool.SubGas` | core/gaspool.go:39-45 | subtracts, or reports that there is not enough |
| `StateTransitions.PriceSplits` | core/state_transition.go:154-156 | the effective price is the base fee plus the miner's tip |
| `StateTransitions.Refusal` | core/state_transition.go:393-502 | a message that passes bids at least the base fees and has the account's nonce |
| `StateTransitions.RejectionIs` | core/state_transition.go:317-574 | a message is turned down for the first error that applies to it, in the order of the checks, and passes if and only if none does |
| `StateTransitions.BoughtShares` | core/state_transition.go:371-389 | who pays what for gas and blobs and what the treasury gets, under every coincidence of the roles |
| `StateTransitions.BuyingIsAffordable` | core/state_transition.go:317-391 | paying after the checks leaves nobody in debt and leaves the sender the value to transfer |
| `StateTransitions.BuyingTotal` | core/state_transition.go:371-389 | buying gas takes its price out of the world, and the blob fee if there is no treasury |
| `StateTransitions.WordSize` | core/state_transition.go:275-281 | the size in words, rounded up |
| `StateTransitions.Charged` | core/state_transition.go:231-252 | the overflow check by division is exact |
| `StateTransitions.DataCostIs` | core/state_transition.go:212-251 | the data is refused exactly when its sum overflows, otherwise it costs the sum |
| `StateTransitions.IntrinsicCostIs` | core/state_transition.go:212-257 | the intrinsic gas is the sum exactly when that fits in 64 bits |
| `StateTransitions.ListsWrap` | core/state_transition.go:251-257 | an access list that costs nothing |
| `StateTransitions.FloorCostIs` | core/state_transition.go:260-272 | the EIP-7623 floor of the token count modulo 2^64, so right exactly if the count fits |
| `StateTransitions.FloorWraps` | core/state_transition.go:260-272 | data whose floor is that of no data |
| `StateTransitions.Refund` | core/state_transition.go:723-740 | the largest amount that is no more than the counter and than a half, after London a fifth, of the gas used |
| `StateTransitions.GasLeft` | core/state_transition.go:611-630 | the gas used lies between the floor and the peak, and is the refunded amount where the floor allows |
| `StateTransitions.GasLeftIs` | core/state_transition.go:611-630 | the gas used is what was spent less the refund, but not less than the floor; the peak is what was spent, but not less than the floor |
| `StateTransitions.PaidTotal` | core/state_transition.go:631-653 | what returning gas, the tip and the treasury's share add to the world |
| `StateTransitions.Shares` | core/state_transition.go:631-653 | every account gets the shares of the parts it plays, however many those are |
| `StateTransitions.BurnIsIntended` | core/state_transition.go:646-653 | what is destroyed is as intended exactly below 2^63 gas, or without a treasury, or without a base fee |
| `StateTransitions.TreasuryPays` | core/state_transition.go:646-653 | at 2^63 gas the treasury loses its share instead of getting it |
| `StateTransitions.PaidSolvent` | core/state_transition.go:631-653 | settling leaves nobody in debt, below 2^63 gas |
| `StateTransitions.StartedAccount` | core/state_transition.go:584-596 | what the EVM finds in every account: the sender's nonce one higher, modulo 2^64, and the effective authorizations |
| `StateTransitions.StartedTotal` | core/state_transition.go:586-596 | spending the nonce and applying authorizations moves no money |
| `StateTransitions.SettlementTotal` | core/state_transition.go:317-391 | buying and settling take exactly the burn out of the world, whoever sender, payer, coinbase and treasury are |
| `StateTransitions.StateTransition.constructor` | core/state_transition.go:284-297 | a transition starts with no gas |
| `StateTransitions.StateTransition.BuyGas` | core/state_transition.go:317-391 | either an error and nothing changed, or gas bought from pool and payer |
| `StateTransitions.StateTransition.Charge` | core/state_transition.go:541-574 | the later checks, of which the one of the transferable balance never fails |
| `StateTransitions.StateTransition.SettleGas` | core/state_transition.go:611-630 | the refund, the floor and the peak |
| `StateTransitions.StateTransition.ReturnGas` | core/state_transition.go:744-756 | payer and pool get the rest; the pool cannot overflow |
| `StateTransitions.StateTransition.PayFees` | core/state_transition.go:633-653 | the tip and the treasury's share |
| `StateTransitions.StateTransition.TransitionDb` | core/state_transition.go:517-662 | when a message is applied and when not; the pool loses exactly the gas used, which is determined by the gas and the refund counter that the EVM left and by the floor; money changes by the EVM's doing and the burn |
| `StateTransitions.MoneyMoved` | core/state_transition.go:517-662 | the money side of it |
| `StateProcessors.ToMessage` | core/state_transition.go:126-173 | the message carries the effective price and is otherwise the transaction's |
| `StateProcessors.SystemLastSplits` | core/state_processor.go:104-121 | a block in which no common transaction follows a system transaction is its common ones followed by its system ones |
| `StateProcessors.ApplyMessageWithEVM` | core/state_processor.go:172-227 | pool and cumulative gas move by the gas used; the receipt's status is the EVM's; the accounts are those that settling leaves and the refund counter is cleared; the reasons for failing; the money burnt |
| `StateProcessors.Advanced` | core/state_processor.go:104-136 | a round adds the transaction to the right list and keeps order and books, or names the reason why it cannot follow |
| `StateProcessors.Process` | core/state_processor.go:61-136 | pool plus used gas is the block's limit, receipts carry the running total, each within its limits, system transactions come last after Miko, and the money gone is the burns; the common transactions were applied one after the other, each to the state that the one before left; a refused block has a first transaction that cannot follow, for the stated reason |
| `BlockHashes.WalkIsPath` | core/evm.go:97-128 | the plain walk finds the block of the path at the number |
| `BlockHashes.Extend` | core/evm.go:112-127 | the walk from the last slot fills the cache and answers |
| `BlockHashes.WalkFrom` | core/evm.go:97-128 | slot i of the cache is where the plain walk stands after i steps |
| `BlockHashes.HashFn.constructor` | core/evm.go:97-101 | the cache starts empty |
| `BlockHashes.HashFn.Get` | core/evm.go:102-127 | every answer to any sequence of queries is that of an uncached walk, and slots never change |
| `DerivationPaths.ParseDerivationPath` | accounts/hd.go:68-118 | the parser computes the specified result, error by error |
| `DerivationPaths.ParseComponents` | accounts/hd.go:91-116 | its loop |
| `DerivationPaths.ToString` | accounts/hd.go:122-136 | the printer computes the specified text |
| `DerivationPaths.NumeralIs` | accounts/hd.go:130-130 | a number is printed in digits that have its value by position, without a leading zero |
| `DerivationPaths.PrintedComponent` | accounts/hd.go:122-136 | between the slashes stands the numeral of each component, marked exactly if it is hardened |
| `DerivationPaths.TrimIs` | accounts/hd.go:74-97 | trimming takes away spaces at the two ends, and all of them |
| `DerivationPaths.PaddingIsIgnored` | accounts/hd.go:91-108 | spaces around a component do not matter |
| `DerivationPaths.SplitConcat` | accounts/hd.go:72-72 | splitting at slashes distributes over a slash |
| `DerivationPaths.RoundTrip` | accounts/hd.go:68-136 | printing and parsing gives the path back, exactly for non-empty paths |
| `DerivationPaths.PrintingIsCanonical` | accounts/hd.go:68-136 | what is parsed from any text prints to a text that parses to the same |
| `DerivationPaths.PrintingIsInjective` | accounts/hd.go:122-136 | different paths print differently |
| `DerivationPaths.WrittenOutHardening` | accounts/hd.go:91-116 | parsing is not injective: a written-out hardening bit parses like the mark |

## Left out

- The LRU caches in front of the database, metrics, logging and the tracer hooks.
- The interrupt path of a header import between its two batches, and failing database writes, which end the process.
- The freezer and ancient store, InsertReceiptChain, snapshots, and the path-based trie scheme beyond a set of recoverable roots; the rewind is modelled with an empty freezer, so that it never forces the head below the target.
- The consensus engine, block and header verification, signature recovery, and the EVM and journal of the state; they are parameters or hypotheses.
- System transactions and simulated calls with the base fee switched off; both would skip most of `TransitionDb`.
- The deletion of empty and self-destructed accounts after each transaction, which belongs to the state database; only the refund counter is cleared.
- The blacklist contract, which is a predicate parameter of block processing, and the engine's Finalize.
- Blob sidecars, dirty accounts, internal transactions and the additional chain events of a block import.
- The errors of reorg for missing bodies, and of state commits; the regime is full import.
- The inner nodes of tries; `TrieGC` looks at roots only, and at block numbers below 2^63, where the negated priority is exact. The heap inside the priority queue is represented by what popping promises.
- The type checks of the feed, and the error channel of a subscription.
- Child indexers and pruning.
- ChainIndexers.ChainIndexer.Load: the database is one that was written without a checkpoint; the checkpoint is not stored in it, and sections below one have no heads.
- The transaction lookup in a rewind, which the code leaves alone (core/blockchain.go:838); that the lookup is exact is stated over runs of imports.
- Derivation path iterators and JSON, and the number formats that big.Int.SetString reads besides decimal numerals.
- HeaderChains.HeaderChain.Open: the database is a consistent one; loadLastState and its repair of broken markers are modelled only as far as `Repair` goes. The same holds of BlockChains.BlockChain.Open and Rewinds.BlockStore.Open.
