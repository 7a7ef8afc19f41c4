# HVFS metadata server: a verified model of its memory engine

The HVFS metadata server keeps directories in memory as *ITBs* (tables of
directory entries), finds them through an extendible hash table (the *CBHT*),
and writes them back in *transaction groups* (TXGs). This project models the
parts that carry hard properties and proves those properties for all inputs, all
runs and all interleavings.

| Files | What they model |
|---|---|
| `Common`, `ItbTable`, `ItbInvariant`, `ItbMatch`, `ItbNames`, `ItbStates`, `ItbObject` | One ITB: index slots with conflict chains, bitmap, ITEs and counters. `ItbObject.Itb` is the table in place, on arrays; the other modules give the value it stands for, the run invariant, and the directory machine it refines |
| `ItbCounts`, `ItbEdits`, `ItbChanges` | What a request may do to an ITB whatever its header says, the header counters seen alone, and what it does to the directory that the ITB stands for |
| `ItbCow`, `ItbCopies`, `ItbLife` | The copy-on-write of an ITB with the header copied early and refreshed late, which headers keep later copies right, and the life of one ITB between requests and copies |
| `TxgModel`, `TxgInvariant`, `TxgSteps`, `TxgTheorems`, `TxgProgress` | The TXG protocol: requests that pin a TXG, the switcher, the commit threads, and the four cases of `itb_dirty`, as a step relation in which every store the threads race on is a step of its own and every change of an ITB is an edit of `ItbEdits` |
| `TxgTables`, `TxgLost`, `TxgDirectories`, `TxgReassign`, `TxgPaths`, `TxgRaces`, `TxgStale` | The tables inside the protocol, lost updates, the directories that searches see across all copies, the assertions of the reassignment, and concrete runs |
| `CbhtBits`, `CbhtModel`, `CbhtSplit`, `CbhtDir`, `CbhtMap`, `CbhtObject` | The CBHT: segmented directory, doubling, splits that repeat, insert, delete, search. `CbhtObject.Cbht` is the table in place |
| `Bitmap`, `Routing` | Routing a name hash to an ITB through the bitmap slices of a directory |
| `Ring`, `Hash64` | The consistent-hash ring in its growing array, and the hashes |
| `TxModel`, `TxInvariant`, `TxSteps`, `TxTheorems`, `TxProgress`, `TxPaths`, `TxRecycle`, `TxReply`, `TxRaces` | Transactions, their LRU list and the commit callbacks, as a step relation |

An object whose methods update its fields is a class, and a loop is a loop. The
arrays of an ITB, of a bitmap slice and of the ring are arrays; the bucket lists
and directory segments of the CBHT and the slice list of a directory, which the
source links by pointers, are sequences that the methods of their class reassign.
Each method is proved equal to a function of the old state, and the promises of
the source are proved about that function. The two protocols are step relations
because what they promise is about interleavings. `writer`, `closer`, `holder`,
`joins` and `place` in their states are bookkeeping that no step reads to decide
what to do, except where `place` stands for the list link that `txg_add_itb` tests.

## What the code does not promise

Several properties that the code seems to be written for are false of it. The
code is modelled as it is; each of these has a concrete counterexample and,
beside it, the exact condition under which the property holds.

* **A copy can lose a file.** `itb_cow` copies the header before it takes the
  locks, and `itb_cow_recopy` refreshes the counters only if `len` differs
  (mds/itb.c:781). An unlink and a create in between leave `len` as it was and
  `max_offset` stale; a later unlink then shrinks `len` below a live ITE and the
  next copy drops it (`ItbCow.StaleHeaderLosesFile`, and as a run of the whole
  protocol `TxgStale.CopyLosesFile`). A single copy is right exactly if every
  allocated ITE lies inside `len` (`ItbCow.CowIsRightIff`). All later copies are
  right, whatever is added, deleted, changed and copied without a race in between,
  exactly if the header is *lasting* (`ItbCopies.LaterCopiesRightIff`): every allocated ITE is inside
  `len`; `entries` is not behind the number of allocated ITEs, or is behind it by
  the whole capacity; and none but ITE 0 is above `max_offset`, unless `entries` is so
  far ahead that no add gets down to `max_offset`
  (`ItbCounts.Lasting`). In the protocol, tables keep their shape in every run
  (`TxgTables.TablesStayFormed`); as long as only lasting headers enter the hash
  table every copy means what it replaces (`TxgTables.WinKeepsMeaning`); and that
  guard is exact (`TxgTables.GuardIsExact`). An ITB that began empty and met requests,
  sweeps and copies without a race always has a lasting header (`ItbLife.LifeStaysRight`).
* **An update can be lost.** Between releasing its write locks and taking the new
  ITB's read lock (mds/itb.c:897-915) the winner of a COW holds nothing; a request
  of the next TXG can copy the new ITB in that window, and the winner then writes
  to an ITB that cannot be reached (`TxgRaces.UpdateCanBeLost`). No other step
  writes to an unreachable ITB (`TxgTheorems.WritesAreReachable`). The update is
  lost exactly if another request has copied the new ITB since the win
  (`TxgLost.UpdateLostIff`). While the winner's TXG is the open one that is
  impossible (`TxgLost.OpenWinnerReaches`); once it no longer is, any request that is
  idle or pinned in the open TXG can still bring it about (`TxgLost.LateWinnerCanLose`).
  These two are all that can go wrong: in a run in which only lasting headers enter the
  hash table and no winner's update is lost, every ITB that searches reach stands for the
  directory that the changes of all requests make, in order, across all copies
  (`TxgDirectories.SearchesSeeAllChanges`); and the first update that is lost leaves some
  reachable ITB without it, unless it alters no file (`TxgDirectories.RightUnlessLost`).
* **The assertions that end a reassignment can fail** (mds/itb.c:941-942): a fresh
  clean ITB is visible before it is dirtied (`TxgRaces.AssertionCanFail`). They hold
  in every continuation exactly if the ITB was dirty when the request met it
  (`TxgReassign.ReassignmentIff`).
* **A split may never end.** `mds_cbht_del` does not lower `active`
  (mds/cbht.c:633-639), so a bucket can be full of deleted ITBs. The retry loop ends
  exactly if some ITB of the bucket differs from the key above the bucket's hash
  bits, or the counter is ahead of the ITBs and the key has a bit set above the
  bucket's depth (`CbhtSplit.SplitEndsIff`). A key whose hash has no bit above the
  bucket's hash bits, inserted and deleted as often as a bucket takes ITBs, is an
  instance (`CbhtMap.AllDeletedHangs`), and every itbid has a puuid with hash 0
  (`Hash64.OneKeyHashesToZero`, `CbhtMap.SomeKeyHangs`). That the insert does not
  return presupposes that each of its splits gets its memory.
* **Routing may never end.** A slice beyond the last one is dropped by the insert
  (mds/xtable.c:153-175), and a position that needs it is asked for again and again
  (`Routing.BeyondLastNeverEnds`); so is one whose load returns 0 without a slice.
  The loop ends exactly if the first member of the fallback chain that does not fall
  back is set, or held by a slice that can be had, with its bit, or fails to load
  (`Routing.RoutingEndsIff`); with nothing to load, exactly if some member of the
  chain is set (`Routing.NothingToLoadIff`).
* **A transaction may be recycled while it is still in use.** `mds_send_reply` calls
  `mds_tx_reply` after `mds_tx_done` has let the TXG go (mds/c2m.c:88-89), `mds_tx_done`
  itself puts the TXG after it has put a transaction on the LRU list, and the commit
  callback unlists a transaction after it has done so. A transaction recycled in these
  windows can join the LRU list twice (`TxRaces.JoinsTwice`), be called back while it
  is processed (`TxRaces.CallbackComesTooEarly`), be lost (`TxRaces.TransactionIsLost`)
  or leave its TXG pending for ever (`TxRaces.EarlyRecyclingStallsCommit`). The
  accounting stays right in every continuation, without another early recycling, exactly
  if the recycled transaction is at rest (`TxRecycle.RecyclingIff`). `ftx` and `total`
  are right in every run (`TxTheorems.CountersInEveryRun`).
* **A state can go back from COMMITED to ACKED**, with no early recycling at all
  (`TxRaces.CommittedBecomesAcked`): `mds_tx_reply` tests and then stores. It happens
  exactly if the transaction's callback runs between its reply's test and store
  (`TxReply.LateReplyIff`), and of the replies past their test exactly those of NORMAL
  transactions can still meet it (`TxReply.CanGoBackIff`).
* **A lookup by uuid misses plain files**: `memset(e, 0, sizeof(e))` clears the
  `hash` field, the first eight bytes. A search by the uuid and name hash of a file
  that is present finds it exactly if it was created as a hard link or its name hashes
  to 0 (`ItbNames.FoundByUuid`, mds/itb.c:476).
* **A name can go while links remain**: `nlink` has 16 bits. An unlink takes a name away
  exactly if the links made since its create are one more than the unlinks modulo 65536
  (`ItbStates.GoneAtLastLink`).
* **Async unlink may stop before its budget is used**, as it counts a dead head that it
  exchanges twice; its tally is given exactly (`ItbObject.Itb.AsyncUnlink`).

## Model

| member | source | states |
|---|---|---|
| `ItbTable.UnlinkHeadKeepsShape` | mds/itb.c:319-336 | Removing the only entry of a chain leaves every other chain as it was: chains stay acyclic, disjoint, ended by UNIQUE, and their entries biject with the set bits |
| `ItbTable.SpliceKeepsShape` | mds/itb.c:383-391 | Removing a later entry of a chain takes exactly that slot out of that chain and keeps the shape of all others |
| `ItbTable.SwapKeepsShape` | mds/itb.c:394-402 | Exchanging the entries of two slots of one chain keeps the chains and moves the two entries only |
| `ItbTable.AddToFreeHead` | mds/itb.c:181-186 | A new entry under a FREE head becomes the only slot of its chain |
| `ItbTable.AddToUniqueHead` | mds/itb.c:187-198 | A new entry under a UNIQUE head makes a chain of two through the free second-half slot |
| `ItbTable.AddToConflictHead` | mds/itb.c:199-211 | A new entry under a CONFLICT head is linked in behind the head and the rest of the chain keeps its order |
| `ItbTable.ChainSlots` | mds/itb.c:175-234 | The head of a chain is in the first half, every later slot in the second half, and all of them are in use |
| `ItbInvariant.RemoveHead` | mds/itb.c:359-362 | Deleting a lone head releases its ITE and nothing else, and keeps shape, counters and bounds |
| `ItbInvariant.RemoveLater` | mds/itb.c:383-391 | Deleting a later slot releases its ITE and nothing else, and keeps shape, counters and bounds |
| `ItbInvariant.SwapInChain` | mds/itb.c:394-402 | The head swap releases nothing and leaves every entry under the same head |
| `ItbInvariant.DeletedBySwap` | mds/itb.c:346-415 | Deleting a head with followers removes exactly the head's original entry |
| `ItbInvariant.DeletedLater` | mds/itb.c:346-415 | Deleting a middle or last slot removes exactly its original entry |
| `ItbInvariant.AddIteKeeps` | mds/itb.c:241-314 | Adding an ITE allocates exactly the free ITE chosen, under the head of its hash, and keeps the run invariant |
| `ItbInvariant.ZeroBitExists` | mds/itb.c:252-262 | A zero bit exists exactly while fewer ITEs are allocated than the table has |
| `ItbInvariant.FreeSlotExists` | mds/itb.c:129-169 | While an ITE is free, a second-half slot is free, so the EINVAL exit is dead |
| `ItbInvariant.ChainNames` | mds/itb.c:175-234 | The entries of a chain are, without repetition, exactly the allocated ITEs that belong to its head |
| `ItbInvariant.AllKept` | mds/itb.c:1210-1319 | A chain without UNLINKED entries is left as it is by the sweep |
| `ItbInvariant.SweepSplice` | mds/itb.c:1268-1279 | Splicing out a dead slot in the middle of a sweep keeps what the sweep has established |
| `ItbInvariant.SweepSwap` | mds/itb.c:1283-1291 | Swapping a dead head with the first live slot keeps what the sweep has established |
| `ItbInvariant.SweepLast` | mds/itb.c:1298-1307 | A sweep that found only dead entries ends with the head removed |
| `ItbInvariant.SweptOneMore` | mds/itb.c:1210-1319 | Sweeping one more head leaves its chain with exactly its not-UNLINKED entries and touches no other chain |
| `ItbMatch.NameHitIsEquality` | mds/itb.c:595-600 | The memcmp and the test of the terminating byte together decide equality of names |
| `ItbMatch.LookupIsFirstHit` | mds/itb.c:957-1129 | The chain walk returns the first slot of the hash's chain whose ITE matches |
| `ItbMatch.LookupFinds` | mds/itb.c:957-1129 | The walk finds a slot exactly if some allocated ITE under the head matches, and what it finds matches |
| `ItbMatch.KindOfQuery` | mds/itb.c:590-604 | A query by neither name nor uuid finds nothing, and one by both goes by the uuid |
| `ItbMatch.ChainLength` | mds/itb.c:957-1129 | A chain has no more slots than the index, so the walk ends |
| `ItbNames.LookupByName` | mds/itb.c:957-1129 | A by-name search hits exactly the names that are present and finds the one ITE that bears the name |
| `ItbNames.NamesAreAlive` | mds/itb.c:572-604 | The ITEs that bear names are exactly the allocated ones that are not UNLINKED, one name each |
| `ItbNames.NamesAndDead` | mds/itb.c:241-314 | Names and dead ITEs together fill exactly the allocated ITEs, counted by `entries` |
| `ItbNames.NamedAfterAdd` | mds/itb.c:241-314 | Creating a name adds just that name with its metadata |
| `ItbNames.NamedAfterDelete` | mds/itb.c:420-436 | Unlinking a hard link removes just that name |
| `ItbNames.NamedAfterUpdate` | mds/itb.c:420-436 | Changing an ITE in place changes just the metadata of its name |
| `ItbNames.NamedAfterKill` | mds/itb.c:420-436 | Marking an ITE UNLINKED removes just its name and leaves one more dead ITE, under the head of that name |
| `ItbNames.NamedAfterSweep` | mds/itb.c:1210-1319 | Async unlink changes no name and no metadata, and reaps exactly the dead ITEs under the heads it has scanned |
| `ItbNames.SweepIsReap` | mds/itb.c:1210-1319 | A sweep that stops where its tally reaches the budget goes past no occupied head up to which the dead ITEs alone use up the budget |
| `ItbNames.SweepChangesNoAnswer` | mds/itb.c:1210-1319 | A by-name search gives the same answer before and after async unlink |
| `ItbNames.LookupByUuid` | mds/itb.c:590-594 | A by-uuid search finds a file exactly if some name present has that uuid, that stored hash and that head |
| `ItbNames.RunIsNumbered` | mds/itb.c:278 | In every run in which the counter gives each uuid once, each file bears the uuid of the request that made it and no two files share one |
| `ItbNames.FoundByUuid` | mds/itb.c:471-481 | In every such run a search by the uuid and name hash of a present file finds it exactly if a hard-link create made it or its name hashes to 0 |
| `ItbStates.RunTellsStates` | mds/itb.c:420-436 | In every run the state of a file is SHADOW exactly if it was unlinked since it was created |
| `ItbStates.SearchesByState` | mds/itb.c:572-605 | In every run an ITE_ACTIVE search finds a name exactly if it is present and was not unlinked since it was created; an ITE_SHADOW search exactly if it is present and was, or a dead ITE of that name is left, and in either case after an unlink of that name; one with both filters finds nothing, one with none exactly the names present |
| `ItbStates.RunTellsLinks` | mds/itb.c:420-436 | In every run the link count of a plain file is one plus the links less the unlinks since its create, modulo 65536 |
| `ItbStates.GoneAtLastLink` | mds/itb.c:420-436 | In every run an unlink takes the name of a plain file away exactly if that number is 1 modulo 65536, and the name of a hard link always |
| `ItbObject.Itb.constructor` | mds/itb.c:650-709 | A fresh ITB satisfies the run invariant and is empty |
| `ItbObject.Itb.FirstZero` | mds/itb.c:252-262 | The allocator finds the least zero bit, or the capacity if there is none |
| `ItbObject.Itb.GetFreeIndex` | mds/itb.c:129-169 | The first free second-half slot in round-robin order is taken, and twice the capacity is returned only if there is none |
| `ItbObject.Itb.AddIndexSlot` | mds/itb.c:175-234 | The index and counters become those of `AddIndex` |
| `ItbObject.Itb.Add` | mds/itb.c:241-314 | The ITE is stored in the least free ITE under the head of its hash, exactly below capacity; EINVAL cannot happen |
| `ItbObject.Itb.UnlinkSlot` | mds/itb.c:319-336 | The slot, its bit and the counters become those of `Unlink` |
| `ItbObject.Itb.Del` | mds/itb.c:346-415 | On any slot of a chain exactly that slot's entry is removed, in place, as `DeleteSlot` says |
| `ItbObject.Itb.SweepChain` | mds/itb.c:1210-1319 | Scanning one chain leaves it with exactly its live entries and keeps the invariant; the inner assertion holds |
| `ItbObject.Itb.AsyncUnlink` | mds/itb.c:1210-1319 | Async unlink ends, keeps the invariant and reclaims exactly the dead ITEs of the heads it scanned; its tally is their number, with each dead head that has a live follower counted twice; and it stops at the first occupied head at which the tally has reached the budget |
| `ItbObject.Itb.Search` | mds/itb.c:957-1129 | The do/while walk returns what `Lookup` gives |
| `ItbObject.Itb.FindByName` | mds/itb.c:565-605 | A lookup by name, with any state filters, answers with a file of that name that passes them, or a dead ITE if these are asked for, and misses only if there is neither |
| `ItbObject.Itb.UnlinkIte` | mds/itb.c:420-436 | Unlink answers and changes the directory as the machine does |
| `ItbObject.Itb.Serve` | mds/itb.c:957-1129 | Each request answers and changes the directory as the machine does, and changes the table by one change of a name, or by a sweep |
| `ItbObject.Run` | mds/itb.c:957-1129 | Every run of create, link create, lookup by name and by uuid, link-add, unlink and async unlink answers as the directory machine does |
| `ItbEdits.DeleteMoves` | mds/itb.c:346-415 | Deleting a slot gives up exactly the ITE it names and moves the header counters accordingly |
| `ItbEdits.PickExists` | mds/itb.c:129-169 | While an ITE is free the round-robin search picks a slot |
| `ItbEdits.EditKeepsInv` | mds/itb.c:241-415 | While the header counts and covers the ITEs exactly, every edit keeps it so |
| `ItbChanges.ChangeActs` | mds/itb.c:241-436 | Whatever the header says, storing, dropping, burying or altering a name is one edit of the table, and does to the directory it stands for just that |
| `ItbChanges.StandsAnswers` | mds/itb.c:957-1129 | A by-name search of a table that stands for a directory finds exactly its files |
| `ItbChanges.NamesAreUnique` | mds/itb.c:241-314 | A table has only one assignment of its names to ITEs, so it stands for one directory |
| `ItbEdits.EditKeeps` | mds/itb.c:241-415 | Whatever the header says, an add, a delete or an update in place leaves a well-formed table, with the counters moved once or not at all |
| `ItbEdits.MoveIsEdit` | mds/itb.c:241-415 | Every move of the counters is the move of some edit of the table |
| `ItbCounts.LastingIff` | mds/itb.c:175-336 | The allocated ITEs stay inside `len` through all adds and deletes exactly if the header is lasting |
| `ItbCow.CowRecopy` | mds/itb.c:767-802 | The copy in place becomes `Recopy` of the original and the recycled memory; the original is untouched |
| `ItbCow.CowKeepsMeaning` | mds/itb.c:734-802 | A copy of a table whose ITEs lie inside `len` answers every search at the same slot with the same ITE |
| `ItbCow.CowInventsEntry` | mds/itb.c:734-802 | With an allocated ITE outside `len` some recycled memory makes the copy find a uuid, no larger than the capacity, that the table does not hold |
| `ItbCow.CowLosesFile` | mds/itb.c:734-802 | A file whose ITE lies outside `len` is found by its own name before a copy and, over recycled UNLINKED ITEs, not after it |
| `ItbCow.CowIsRightIff` | mds/itb.c:734-802 | A copy is right, for all recycled memory and all that requests can ask, exactly if every allocated ITE lies inside `len` |
| `ItbCow.CowOfRun` | mds/itb.c:734-802 | The copy of a table that stands for a directory answers by-name searches as the directory does, under any header |
| `ItbLife.RunWithCopies` | mds/itb.c:734-802 | Every run of requests on one ITB answers as the directory machine does, wherever copies that nobody races with come in between; and each table it goes through keeps all later copies right |
| `ItbLife.LifeStaysRight` | mds/itb.c:734-802 | An ITB that began empty and met any edits, sweeps and copies without a race keeps all its later copies right |
| `ItbCow.CowKeepsInvIff` | mds/itb.c:778-791 | The copy satisfies the run invariant of one ITB exactly if the header it ends up with counts and covers its ITEs |
| `ItbCow.StaleHeaderLosesFile` | mds/itb.c:778-791 | A concrete run in which the stale header of one copy makes the next copy lose a file |
| `ItbCopies.LaterCopiesRightIff` | mds/itb.c:734-802 | All later copies of a table are right, whatever is added, deleted, changed and copied before them, exactly if its header is lasting |
| `ItbCopies.CopyStaysRightIff` | mds/itb.c:778-791 | The copy of a table with a lasting header has one exactly if its header was refreshed or the one copied early lasts over the ITEs that are allocated now |
| `TxgInvariant.InitInv` | mds/txg.c:74-90 | The start state satisfies the protocol invariant |
| `TxgSteps.CheckKeeps` | mds/txg.c:92-110 | The state check after pending++ returns only a TXG that is open and not drained |
| `TxgSteps.RebindFacesOpen` | mds/itb.c:929-943 | While a request waits in the reassignment branch the open TXG is the one after its own |
| `TxgSteps.RenumbersOnlyClean` | mds/itb.c:823-928 | `itb_dirty` renumbers an ITB only when it is clean and on no list |
| `TxgSteps.CowWinKeeps` | mds/itb.c:861-895 | A COW win keeps the invariant for all threads |
| `TxgSteps.NeverAbandons` | mds/txg.c:258-266 | The retry exit of the commit thread's wait is never taken |
| `TxgSteps.NextKeepsInv` | mds/txg.c:92-284 | Every step of every thread keeps the protocol invariant |
| `TxgSteps.RunKeepsInv` | mds/txg.c:92-284 | The invariant holds in every state of every run |
| `TxgTheorems.FreezeStep` | mds/itb.c:818-946 | No step of anyone changes bitmap, index or ITEs of an ITB whose TXG has drained |
| `TxgTheorems.WriteBackFreeze` | mds/txg.c:268-284 | From the drain of its TXG until the commit thread is done with it, an ITB on the dirty list keeps its content in every interleaving |
| `TxgTheorems.DrainSafety` | mds/txg.c:248-268 | When a commit thread passes the pending test no request holds the TXG, and none ever does again |
| `TxgTheorems.DrainsOnce` | mds/txg.c:248-268 | No TXG is drained twice |
| `TxgTheorems.OneWriter` | mds/txg.c:248-257 | At most one commit thread ever waits for and writes back a TXG |
| `TxgTheorems.LiveAreConsecutive` | mds/txg.c:124-156 | At most two TXGs are live, with consecutive numbers |
| `TxgTheorems.HeldAreLive` | mds/txg.c:92-110 | Two TXGs that requests hold are live, differ by at most one, and are the same exactly if their numbers are |
| `TxgTheorems.DirtyCasesExhaustive` | mds/itb.c:823-943 | The four cases of `itb_dirty` leave nothing out, none meets a COWED ITB, and the far case sees only clean ones |
| `TxgProgress.AccessIsServed` | mds/itb.c:818-945 | In every run a request that reaches an ITB is served by exactly one case: of its TXG, CLEAN and one older, or older still, the ITB takes the update and is DIRTY, numbered like the request's TXG and on its dirty list or with the winner that will put it there; DIRTY and one older, it is copied with its header as it is; one newer, the request is reassigned |
| `TxgProgress.RefreshIsServed` | mds/itb.c:911-918 | A winner that re-enters its search can always write to its copy, which stays on the dirty list of its TXG |
| `TxgProgress.InsertIsServed` | mds/cbht.c:471-544 | Every well-formed ITB of this TXG or an older one can be hashed, and enters clean and unlinked |
| `TxgProgress.CopyWinsIff` | mds/itb.c:861-895 | A copy is won exactly if the ITB is still reachable, DIRTY and of the TXG before, and nobody holds its lock |
| `TxgTheorems.WinTakesDirty` | mds/itb.c:861-895 | In every run a win replaces a reachable DIRTY ITB of the TXG before, which that TXG still commits and frees, by a DIRTY one of the winner's TXG |
| `TxgTheorems.DirtyWillCommit` | mds/txg.c:162-169 | Every reachable dirty ITB is listed with, or about to be listed with, or in the commit thread's hand for, the live TXG of its number |
| `TxgTheorems.CommittedIsClean` | mds/txg.c:268-284 | Once the commit of a TXG has finished, every reachable ITB of its number or less is clean, for good |
| `TxgProgress.CommitFinishes` | mds/txg.c:243-292 | From every state of every run a commit thread that finds a demoted TXG with nothing pending, or writes it back already, with any dirty list and any ITB in its hand, finishes by its own steps: the slot is free and each of those ITBs is unlinked with its content, CLEAN unless it was COWED |
| `TxgProgress.TakesInOrder` | mds/txg.c:268-284 | A commit thread takes the ITBs of its TXG in the order in which they were listed, and finishes exactly when the list is empty |
| `TxgProgress.CommitGivesUp` | mds/txg.c:248-257 | A commit thread whose TXG is claimed already goes back to waiting and changes nothing |
| `TxgProgress.SwitchFinishes` | mds/txg.c:124-156 | From every state of every run the switcher finishes by its own steps: the next TXG is open and empty, the old one demoted |
| `TxgTheorems.AddsOnlyUnlinked` | mds/txg.c:162-169 | In every run `txg_add_itb` meets only ITBs that are on no list, so its test never decides anything |
| `TxgTheorems.DemotedIsDirty` | mds/txg.c:173-201 | In every run only a TXG with a dirty ITB is demoted |
| `TxgProgress.RequestEnters` | mds/txg.c:92-111 | An idle request pins the open TXG by its own steps if that accepts requests |
| `TxgProgress.RequestFinishes` | mds/itb.c:818-945 | From every state of every run a request goes idle by its own steps and gives back just its pins, a winner after it has listed its copy; only one that is reassigned and met its ITB clean can be stopped, by an assertion |
| `TxgTheorems.ReassignedNumber` | mds/itb.c:937-942 | The TXG that a reassigned request gets bears the number of the ITB |
| `TxgTheorems.ReassignmentAsserts` | mds/itb.c:937-942 | Both assertions hold if the ITB was dirty when the request met it |
| `TxgReassign.ReassignmentIff` | mds/itb.c:929-943 | Both assertions hold in every continuation of a reassignment exactly if the ITB was dirty when the request met it |
| `TxgTables.TablesStayFormed` | mds/itb.c:818-1129 | In every interleaving of edits and copies every ITB is well-formed, reachable or not |
| `TxgTables.WinKeepsMeaningIff` | mds/itb.c:861-895 | In every run a winning COW answers all that requests can ask as the ITB it replaces, for all recycled memory, exactly if that ITB keeps its ITEs inside `len` |
| `TxgTables.WinKeepsMeaning` | mds/itb.c:734-802 | In every run in which only lasting headers enter the hash table every ITB keeps its ITEs inside `len` and every win answers as the ITB it replaces |
| `TxgTables.GuardIsExact` | mds/itb.c:778-791 | A win keeps all later copies right exactly if its header was refreshed or lasts over the ITEs allocated at the win |
| `TxgStale.CopyLosesFile` | mds/itb.c:734-802 | A reachable COW, made under the header as it is, replaces an ITB that has a file by one that has not |
| `TxgTheorems.WritesAreReachable` | mds/itb.c:897-918 | Only the step by which a COW winner re-enters its search can write to an unreachable ITB |
| `TxgLost.OpenWinnerReaches` | mds/itb.c:897-918 | While its TXG is open the winner of a COW has a reachable ITB, whatever the others did since |
| `TxgLost.ReachedUnlessTaken` | mds/itb.c:861-895 | An ITB stays reachable exactly as long as no win takes it |
| `TxgLost.UpdateLostIff` | mds/itb.c:897-918 | The winner's update is lost exactly if another request has copied the new ITB since the win, which it can only have done before the winner took that ITB's lock again; and then its TXG is no longer open |
| `TxgLost.LateWinnerCanLose` | mds/itb.c:897-918 | From every state in which the winner's TXG is no longer open, some request is idle or pinned in the open TXG, and none holds the new ITB's lock, steps lead to one in which the winner's update, whatever it is, goes to an unreachable ITB |
| `TxgDirectories.CopyStands` | mds/itb.c:734-802 | The copy of an ITB that keeps its ITEs inside `len` stands for the same directory, under any header and whatever the recycled memory held |
| `TxgDirectories.SearchesSeeAllChanges` | mds/itb.c:809-950 | In every run in which only lasting headers enter the hash table and no winner's update is lost, a by-name search of any reachable ITB finds exactly the files that the changes of all requests, through whichever copies, have left in order; no two reachable ITBs are copies of one |
| `TxgDirectories.RightUnlessLost` | mds/itb.c:897-918 | After such a run the next change of a request is seen by searches exactly if it is not a lost update, or alters no file |
| `TxgRaces.AssertionCanFail` | mds/itb.c:937-942 | A reachable state in which the assertion that the ITB is dirty fails |
| `TxgRaces.UpdateCanBeLost` | mds/itb.c:897-918 | A run in which a file is created in an ITB that no search reaches any more |
| `CbhtModel.SlotLeads` | mds/cbht.c:648-691 | The directory slot of a hash leads to the one bucket whose id is the hash's low bits |
| `CbhtModel.FindIsMap` | mds/cbht.c:847-910 | A lookup finds exactly what the map holds under the key |
| `CbhtModel.InactiveIsEmpty` | mds/cbht.c:873-891 | A bucket whose counter is 0 holds no ITB |
| `CbhtModel.CountSplit` | mds/cbht.c:326-347 | A split neither makes nor loses ITBs |
| `CbhtModel.DoubleKeepsInv` | mds/cbht.c:192-251 | Doubling the directory keeps every bucket referenced by exactly the slots that agree with its id |
| `CbhtModel.DivideKeepsInv` | mds/cbht.c:123-144 | Redirecting the new bucket's slots keeps the directory invariant for all buckets |
| `CbhtModel.DivideKeepsRep` | mds/cbht.c:326-347 | Moving the ITBs keeps every ITB in the list its hash says, with its back pointer right |
| `CbhtModel.LevelKeeps` | mds/cbht.c:308-363 | One level of a split keeps the invariant and the map |
| `CbhtSplit.DeeperLoad` | mds/cbht.c:371-389 | The loop goes deeper only into a bucket that has taken over all ITBs and the whole counter |
| `CbhtSplit.StopsOnlyIfEnds` | mds/cbht.c:371-389 | When the loop stops the guard held and the key's bucket has room |
| `CbhtSplit.EndsByTurn` | mds/cbht.c:283-402 | The loop ends no later than the lowest bits within which some ITB differs from the key |
| `CbhtSplit.NeverEnds` | mds/cbht.c:283-402 | If the guard fails no turn of the loop is the last |
| `CbhtSplit.SplitEndsIff` | mds/cbht.c:283-402 | The loop ends exactly if the guard holds |
| `CbhtDir.Locate` | mds/cbht.c:659-669 | The walk over the segments finds the slot of an offset |
| `CbhtDir.CopyDir` | mds/cbht.c:162-184 | The copy is the asked stretch of the directory, across segments |
| `CbhtDir.EnlargeDir` | mds/cbht.c:192-251 | Segmented doubling yields directory ++ directory for any segment size |
| `CbhtDir.UpdateDir` | mds/cbht.c:123-144 | Exactly the slots that agree with the id in the mask refer to the bucket afterwards |
| `CbhtMap.PutKeepsRep` | mds/cbht.c:529-535 | Linking an ITB whose key is not held adds just that key |
| `CbhtMap.TakeKeepsRep` | mds/cbht.c:633-639 | Unlinking an ITB removes just its key, leaving the counter as it was |
| `CbhtMap.HashedIsHeld` | mds/cbht.c:626-632 | An ITB is hashed exactly if the map holds it, and then its back pointer is the list its hash leads to |
| `CbhtMap.Turn` | mds/cbht.c:303-396 | One turn of the retry loop: the key's bucket is deeper, and has room or all of the load |
| `CbhtMap.AllDeletedHangs` | mds/cbht.c:605-640 | A key with no hash bit above the bucket's, inserted and deleted as often as a bucket takes ITBs, splits for ever on its next insert, in an empty table of any size |
| `CbhtMap.SomeKeyHangs` | lib/hash.c:226-243 | Under the source's hash every itbid has such a puuid |
| `CbhtObject.Cbht.constructor` | mds/cbht.c:409-448 | The initial table is valid and holds nothing |
| `CbhtObject.MoveList` | mds/cbht.c:329-346 | The scan of a list keeps the ITBs without the bit in order and puts the others at the head of the new list, with new back pointers |
| `CbhtObject.Cbht.SplitLevel` | mds/cbht.c:303-363 | One pass of the retry body, in place, is `Level`, and keeps the map |
| `CbhtObject.Cbht.Split` | mds/cbht.c:283-402 | The split ends, keeps the map, and leaves the key's bucket with room, no deeper than the lowest differing bits |
| `CbhtObject.Cbht.SearchDir` | mds/cbht.c:648-691 | The bucket of a hash is found |
| `CbhtObject.Cbht.Insert` | mds/cbht.c:471-544 | The ITB is hashed under its key, or the one that is there already is returned |
| `CbhtObject.Cbht.Delete` | mds/cbht.c:605-640 | The ITB is unhashed if it is hashed, and nothing else changes |
| `CbhtObject.Cbht.Search` | mds/cbht.c:847-910 | The search, with its shortcut, answers as the map does |
| `CbhtObject.Run` | mds/cbht.c:471-910 | Every run of insert, delete and search answers as the map does, except an insert that would split for ever, and exactly those do not return |
| `Bitmap.BitmapUpdate` | mds/xtable.c:84-94 | The old bitmap gains every bit of the new one and loses none |
| `Routing.LookupIsBit` | mds/xtable.c:57-63 | Position offset + 64 j + b of a slice is set exactly if bit b of the number in word j is 1 |
| `Routing.FallbackClears` | mds/xtable.c:69-77 | The fallback clears the highest of the low 32 bits and is 0 if there is none |
| `Routing.WalkFinds` | mds/dh.c:286-322 | The list walk finds the slice that covers a position, if there is one |
| `Routing.InsertTakesUnlessBeyond` | mds/xtable.c:188-216 | An inserted slice adds exactly its bits unless it is beyond the last slice, and then it is dropped |
| `Routing.RoutingEndsIff` | mds/dh.c:279-336 | The retry loop ends exactly if the first member of the fallback chain that does not fall back is set, can be loaded with its bit, or fails to load; and it ends there, or at 0 after a failure |
| `Routing.NothingToLoadIff` | mds/dh.c:279-336 | If no slice exists to be loaded, the loop ends exactly if some member of the chain is held and set |
| `Routing.LoadKeepsVerdicts` | mds/xtable.c:100-185 | A slice loaded on the way changes what happens to no position at or below the one it was loaded for |
| `Routing.RouteIsTheLoop` | mds/dh.c:279-336 | The recursive form of the loop and the loop agree, in ending and in the answer |
| `Routing.BeyondLastNeverEnds` | mds/dh.c:324-334 | A position beyond a last slice without the end flag never gets an answer if its slice exists |
| `Routing.RouteIsFirst` | mds/dh.c:279-336 | With position 0 set and no slice to load, the answer is the first member of the fallback chain that is held and set |
| `Routing.FirstIsFirst` | mds/dh.c:279-336 | That member is in the chain and every other set member of the chain is further down |
| `Routing.NewBitTakesOver` | mds/xtable.c:57-77 | Setting one more bit moves keys only to it, and only those that went where it went itself |
| `Routing.MoreBitsNeverFurther` | mds/xtable.c:84-94 | A bitmap that only gained bits routes no key further down its chain |
| `Routing.UpdateNeverFurther` | mds/xtable.c:188-216 | Inserting or updating a slice routes no key further down its chain |
| `Routing.Dhe.Insert` | mds/xtable.c:188-216 | The list walk of the insert gives `InsertAt`, and tells whether the slice itself was linked in |
| `Routing.Dhe.WalkList` | mds/dh.c:286-322 | The list walk of the routing loop gives `Walk` |
| `Routing.Dhe.GetItbid` | mds/dh.c:279-336 | For a hash that is routed somewhere, the loop ends there; if a held slice has the bit of hash / 1024, there |
| `Routing.SetBitIsRouted` | mds/dh.c:279-336 | A hash whose own position is set in a held slice is routed to that position |
| `Ring.FirstOwns` | lib/ring.c:140-180 | The first point not before a key, or else index 0, is the owner going round the ring |
| `Ring.AddMovesOnlyToNew` | lib/ring.c:90-114 | An added point takes keys over and no other key changes its owner |
| `Ring.DelMovesOnlyFromOld` | lib/ring.c:116-132 | A deleted point gives its keys up and no other key changes its owner |
| `Ring.Ring.Resort` | lib/ring.c:64-73 | The used points are in order and the same points |
| `Ring.Ring.AddPoint` | lib/ring.c:90-114 | The ring holds the old points and the new one, in order, growing by 32 when full |
| `Ring.Ring.DelPoint` | lib/ring.c:116-132 | The ring holds the old points without that one, in the same order |
| `Ring.Ring.GetPoint2` | lib/ring.c:140-180 | For every key the search ends at the first point not before it, or at index 0; an empty ring is refused |
| `Hash64.HashIsMultiply` | include/hvfs_u.h:78-99 | The shifts and adds multiply by 0x9e37fffffffc0001 modulo 2^64 |
| `Hash64.HashInverts` | include/hvfs_u.h:78-99 | The hash is a bijection on words, undone by multiplying by its inverse |
| `Hash64.OneKeyHashesToZero` | lib/hash.c:226-243 | For every itbid exactly one puuid has the hash 0 |
| `Hash64.RingPositionsDiffer` | lib/hash.c:245-254 | Under one salt two keys have the same ring position exactly if they are the same |
| `Hash64.RingIsSymmetric` | lib/hash.c:245-254 | Key and salt can be exchanged, a key salted with itself lies at 0x9e370001, and distinct salts give distinct positions |
| `Hash64.RingInverts` | lib/hash.c:245-254 | A key is recovered from its position and the salt |
| `TxInvariant.InitInv` | mds/tx.c:173-213 | The preallocated transactions satisfy the invariant |
| `TxSteps.NextKeepsInv` | mds/tx.c:41-424 | Every step keeps the invariant if transactions are recycled only at rest |
| `TxSteps.CalmRunKeepsInv` | mds/tx.c:41-424 | The invariant holds in every state of every calm run |
| `TxTheorems.CallbacksSeeDone` | mds/txg.c:206-214 | When callbacks run, nobody pins the TXG and every transaction on its list is at least DONE |
| `TxTheorems.CallbacksCommitOnce` | mds/tx.c:403-424 | The callback finds every transaction DONE or ACKED, so its error branch is dead and none is committed twice |
| `TxReply.LateReplyIff` | mds/tx.c:380-396 | In a calm run a state goes back within its life exactly if the transaction's callback runs between the test and the store of its reply |
| `TxReply.CanGoBackIff` | mds/tx.c:380-396 | Of the replies that have passed their test exactly those of NORMAL transactions can still store ACKED over COMMITED |
| `TxRaces.CommittedBecomesAcked` | mds/tx.c:380-424 | A reachable calm step by which a COMMITED transaction becomes ACKED in the same life |
| `TxTheorems.JoinsOnce` | mds/tx.c:52-78 | A transaction is put on the LRU list exactly once in its life and is on it at most once |
| `TxTheorems.NoneIsLost` | mds/tx.c:354-424 | A transaction that is not on the LRU list is with a handler or waits for its callback |
| `TxTheorems.CountersInEveryRun` | mds/tx.c:52-116 | In every run, calm or not, `ftx` is the length of the LRU list and `total` the number of transactions |
| `TxTheorems.CountersAgree` | mds/tx.c:52-116 | In a calm run `total` counts the LRU list and the transactions in flight |
| `TxProgress.RecyclesFirst` | mds/tx.c:52-116 | In every run an idle handler gets the transaction that has been on the LRU list longest, or exactly if the list is empty a new one |
| `TxProgress.StartServed` | mds/tx.c:95-116 | A transaction can be started in exactly the TXGs that are not closed |
| `TxProgress.HandlerFinishes` | mds/tx.c:41-396 | From every state of a calm run a handler finishes with its transaction by its own steps: listed for the commit if NORMAL, DONE, then ACKED unless COMMITED meanwhile, on the LRU list exactly if it is for no commit, and its TXG let go |
| `TxProgress.CallbacksFinish` | mds/txg.c:206-214 | From every state of a calm run the callbacks of a TXG finish by their own steps: every transaction on the list is COMMITED and joins the LRU list, in the order of the list |
| `TxProgress.CloseServed` | mds/txg.c:248-266 | In a calm run a TXG is closed exactly if nobody has and no handler pins it |
| `TxRecycle.RecyclingIff` | mds/tx.c:52-116 | After a transaction is taken off the LRU list the accounting stays right in every continuation that recycles at rest exactly if it was at rest itself |
| `TxRaces.EarlyRecyclingStallsCommit` | mds/tx.c:380-396 | A run in which a transaction recycled too early leaves its TXG pending with no handler pinning it |
| `TxRaces.JoinsTwice` | mds/tx.c:380-396 | A run in which a transaction recycled too early is on the LRU list twice |
| `TxRaces.CallbackComesTooEarly` | mds/tx.c:354-375 | A run in which a transaction recycled too early is called back while its handler processes it and pins its TXG |
| `TxRaces.TransactionIsLost` | mds/txg.c:206-214 | A run in which a transaction recycled too early is with nobody and on no list |

## Left out

* Sockets, message dispatch, configuration, profiling, timers and debug output, and the unfinished `itb_split`, `itb_overflow`, `itb_readdir`: not part of what the engine promises.
* `mds_read_itb` and `mds_dh_load` are remote; `mds_bitmap_load` is a parameter of the routing loop that gives each slice a fixed answer (not-exist, error, nothing, or the slice).
* Locks, atomics, bit search and the string hashes are taken by their documented effect; hashes of names and of (puuid, itbid) are arbitrary functions.
* Memory reclamation and allocation failure: TXGs and ITBs have identities that are never reused, and allocation succeeds.
* In the TXG protocol an ITB access under its lock is one step and a COW win under both write locks is one step; an ITB that enters the hash table bears a number no larger than that of the TXG its request holds and is well-formed.
* `async_unlink_ite` is proved on one ITB; it does not dirty the ITB (mds/itb.c:1221) and is not a step of the TXG protocol, nor of the histories of `ItbCopies`. Its tally is exact in `ItbObject.Itb.AsyncUnlink`; a directory does not say which ITE of a chain is first, so the machine of `ItbObject.Run` bounds the head at which a sweep stops from both sides.
* TxgModel.CowNext: a request may also give its copy up without a rival, as an ITB that a split of its bucket moves makes it do.
* TxgModel.ReqNext: has no step for a request that finds nothing to change; such a request changes no state the protocol speaks of.
* ItbObject.Run: covers names of legal length without NUL, hash a function of the name, state filters on lookups, and INDEX_ITE_ACTIVE on unlinks and links; an unlink or link with INDEX_ITE_SHADOW would act on dead ITEs, and a create with a filter could make a name twice; metadata is reduced to the link count, or the source of a hard link, so the other fields that `ite_create` and `ite_update` copy, symbolic links and forced updates are not modelled.
* ItbObject.Itb.Search: the reply payload copied after a delete is not modelled.
* 16-bit index fields: the table is small enough for them by its constructor in the source, so entries, conflict links and counters are unbounded numbers here; `nlink` does wrap at 16 bits.
* CbhtBits.Shr: hashes and depths are unbounded numbers; the source shifts an `int` by the depth, which is right only for depths below 31.
* CbhtObject.Cbht.Split: the retries that concurrent splits and directory changes cause (EAGAIN) are not modelled; runs of the CBHT are sequential.
* CbhtObject.Cbht.Insert: `mds_cbht_insert`, which does not look for duplicates and is meant for tests, is left out.
* Ring.Ring.Resort: `qsort` is replaced by an insertion sort in place; only the order and the contents of its result are used.
* Ring.Ring.DelPoint: the pointer that the source is given is the index of a point of the ring.
* Bitmap.BitmapUpdate: the time stamp of the slice is not modelled.
* ItbLife.RunWithCopies: copies that other requests race with are in the TXG protocol, whose directories are those of `TxgDirectories`.
* ItbObject.Itb.Serve: metadata is reduced as in `ItbObject.Run`.
* ItbCow.CowKeepsInvIff: speaks of the header that one copy ends up with; which headers keep later copies right is `ItbCopies.LaterCopiesRightIff`.
* TxgTheorems.ReassignmentAsserts: gives one direction at the assertions themselves; the exact condition is `TxgReassign.ReassignmentIff`.
* TxgDirectories.SearchesSeeAllChanges: the steps of the protocol are the changes that `ItbObject.Itb.Serve` is proved to make to one ITB; which ITB a name belongs to is not part of the protocol.
* Transactions: `mds_free_tx`, the change of op to FORGET on an error reply, reassignment of a transaction's TXG, the random pre-free, eviction from the request hash and its wait for references are left out.
* TxSteps.NextKeepsInv: needs that a transaction taken off the LRU list is at rest, which the code does not check; `TxRecycle.RecyclingIff` shows that nothing less will do.
