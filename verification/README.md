# A verified model of DBlusBlus's storage layer

DBlusBlus keeps pages of 8192 bytes in files, caches them in a buffer pool, and lays out tuples, heap
pages, free-space maps and file superblocks inside them. This project models those parts in Dafny and
proves what they are for: a cache that loses no update, a heap page that behaves like an append-only
list with tombstones, a tuple format whose validator accepts exactly the encoder's output, a checksum
that catches every short burst. `dafny verify dfyconfig.toml` checks all of it.

## The buffer pool

`BufferState` holds the pool's fields and what each critical section does to them as a function.
`BufferSystem` is the step machine: every stretch of a method between two points where the mutex is
free is one atomic step, and any number of tasks interleave. Each `Notify` counts as such a point, so
pools with and without an observer are both covered. The class `BufferPools.BufferPool` has the source's
mutable fields, and each of its methods is proved to change them as the machine's function says;
`BufferSections` composes them into whole critical sections and ties those to the machine's steps.

| source method | steps |
| --- | --- |
| `PinPage`, `JoinLoad`, `PinResidentLocked` | `StartFetch`, `Examine`, `Wake` |
| `LoadPage`, `PublishLoadLocked`, `LoadFailureLocked` | `Bind`, `ReadPage`, `FinishLoad` |
| `AcquireFrame` | `Search`, or `Observe` then `Recheck`; `BeginEvict`, `FinishEvict` |
| `NewPage`, `WaitForNewPageTurn`, `ReserveNewPageNo` | `StartNew`, `TakeTurn`, `Number`, `BindPage`, `Construct`, `FinishNew` |
| `MakeGuard`, `MutablePage`, `MarkDirty`, guard release, `Unpin` | `TakeLatch`, `Mutate`, `MarkDirty`, `ReleaseLatch`, `ReleasePin` |
| `FlushPage`, `FlushFile`, `FlushAll`, `FlushPageLocked`, `WritebackResident` | `StartFlush`, `FlushNext`, `CopyImage`, `FinishWrite`, `FinishFlush` |
| `RegisterFile` | `StartRegister` (reads the page count), `FinishRegister` (under the mutex) |
| `RetireFile`, `Shutdown` | `StartRetire`, `FinishDrain`, `DiscardDrained`; `StartShutdown`, `FinishDrainAll` |
| the disk | `Tear`, `WriteDone`, `SyncDone`, `IoFails`, `Flushed` |

The disk has a volatile and a durable image of each page. A write may tear its page into any bytes before
it fails or completes, a failed write or sync is always possible, and the operating system may make a
volatile image durable at any time. Besides the source's state a system carries four auxiliary parts that
no step reads: `published`, the plain map from page to last published image; `holders`, who owns a frame
or its I/O; `unsynced`, pages adopted at registration whose disk image no sync has covered yet; and
`closed`, set when `Shutdown` succeeds. The published image of a page is what `MarkDirty`, the end of
`NewPage`, or registration put there. "Settled" below means: the disk's image equals the published one up
to checksum bytes 16..19, and the durable one does too unless the page is in `unsynced`.

`BufferPreservation.StepKeeps` is the invariant's preservation by all forty kinds of step; the
modules `BufferRely`, `BufferLocal` and the `Buffer…Steps` hold its parts, one per family of steps.

## What turned out to be conditional

- `RegisterFile` reads the physical page count before it takes the mutex
  (src/storage/buffer/buffer_pool.cpp:91 and :100). If, between the two, another registration of the same
  file creates a page, flushes and is retired, the new bound is stale: the flushed page lies past it,
  cannot be fetched, and the next `NewPage` returns its number and overwrites it.
  `BufferStale.StaleRegistrationLosesPage` is such a run, from a new pool on.
  `BufferAppend.RegistrationIsCurrent` says exactly when one registration is sound. A caller avoids the
  loss by never calling `RegisterFile` for a file that is registered or being registered
  (`BufferDiscipline.DisciplineKeepsCounts`); then no number is ever handed out twice
  (`BufferDiscipline.NumbersIncrease`). Everything else in the append protocol holds unconditionally.
- A page left past the bound by a failed creation is reused by the next `NewPage` while its file stays
  registered, but adopted as published by the next registration of that file, as its bound is the
  physical count (`BufferDiscipline.RegistrationAdoptsAll`).
- A page adopted at registration is only known to be on the volatile disk, because registration does not
  sync. Every update published through the pool does reach the synced disk
  (`BufferDurability.UpdatesReachDisk`).
- The wrong-page-number branch of `NewPage` is reached exactly for a file registered with no page at all
  (`BufferAppend.WrongNumberOnlyWhenEmpty`).
- A free-space answer may miss a page that has 30 bytes to spare, never one with 31
  (`FsmCategories.SpaciousGapIsFound`, `FsmCategories.MarginIsTight`).
- Branches shown to be dead: `PlanCompaction`'s lower-after-upper branch and its assertion
  (`HeapCompacted.PlannedPlannable`), compaction's unsupported state on pages the operations produced
  (`HeapController.GoodPagesCompact`), the malformed-column and size-mismatch branches of `EncodeTuple`
  (`TupleEncoder.WriteColumns`), the size-overflow branches of the layout builder and the planner
  (`TupleLayouts.BuildTuplePhysicalLayout`, `TupleEncoder.PlanIsExact`), and the mapping-overflow branch of
  `FsmLocationForHeapPage` (`FsmCategories.LocationInverts`).

## Reading the names

`Inv(s)` is the buffer pool's invariant, `Runs(s, labels)` says a sequence of steps can be taken and
`After(s, labels)` is where it ends. `Sound(b, pageNo)` is structural validity of a heap page written with
quantifiers instead of passes; `Good` adds that no slot is UNUSED and that every stored tuple is valid;
`View(b)` is the list of live tuples and tombstones. `Packed(layout)` says a tuple layout is one the builder
makes; `Encodes(layout, header, values, e)` describes a tuple's bytes region by region, without the
encoder's cursor; `Agrees(layout, t, e)` is equality outside the fixed bytes of NULL columns that are not
VARCHAR. Bit operations outside the CRC are arithmetic: `n / 2`, `n % 2` and powers of two.

## Model

| member | source | states |
|---|---|---|
| BufferPreservation.StepKeeps | src/storage/buffer/buffer_pool.cpp:56-899 | every step of any task or of the disk, failures and torn writes included, keeps the pool invariant |
| BufferTheorems.InitiallyOk | src/storage/buffer/buffer_pool.cpp:56-67 | a new pool over any disk whose files hold exactly their counted pages satisfies the invariant |
| BufferTheorems.Reachable | src/storage/buffer/buffer_pool.cpp:56-899 | the invariant holds after every run of a new pool over any such disk, whatever the interleaving |
| BufferTheorems.RunKeeps | src/storage/buffer/buffer_pool.cpp:56-899 | the invariant survives any sequence of enabled steps |
| BufferTheorems.GuardSeesPublished | src/storage/buffer/buffer_pool.cpp:240-375 | a live guard without unpublished changes sees the last published image of its page, checksum bytes aside |
| BufferRefinement.ImageStays | src/storage/buffer/buffer_pool.cpp:458-536 | a step that does not publish or discard a page leaves that page's image in the abstract map untouched |
| BufferRefinement.ImageStaysOverRun | src/storage/buffer/buffer_pool.cpp:458-772 | over a whole run without publication or discarding of a page, its abstract image is the one it began with |
| BufferRefinement.ReadsLastPublished | src/storage/buffer/buffer_pool.cpp:240-375 | after any run of hits, joined loads, evictions, reloads, writebacks and I/O failures, a guard reads the image published last: no update is lost or resurrected |
| BufferHistory.OnlyPublicationsChange | src/storage/buffer/buffer_pool.cpp:888-899 | only MarkDirty, the end of NewPage, registration and DISCARD_DIRTY retirement change the abstract map |
| BufferHistory.MarkDirtyPublishes | src/storage/buffer/page_guard.cpp:130-137 | MarkDirty publishes the bytes its exclusive guard sees for its own page only, dirties the frame and advances its generation by one |
| BufferHistory.NewPagePublishes | src/storage/buffer/buffer_pool.cpp:686-697 | a successful NewPage publishes the page whose number is the old bound, advances the bound by one, and hands over one pin and a dirty frame |
| BufferDiscipline.NewPageIsFresh | src/storage/buffer/buffer_pool.cpp:686-697 | under the append discipline that page was not published before |
| BufferHistory.FailedCreationLeavesNoTrace | src/storage/buffer/buffer_pool.cpp:666-684 | a failed creation changes neither map, disk nor bound, unmaps its page and frees its frame: its number is the next handed out |
| BufferHistory.PinnedFramesStay | src/storage/buffer/buffer_pool.cpp:446-456 | whatever step is taken, a frame with a pin keeps its PageId, its binding epoch and its resident state |
| BufferTheorems.ReadersAreUndisturbed | src/storage/buffer/page_guard.cpp:48-65 | two guards on one frame are both shared: no reader sees a page being changed |
| BufferTheorems.CleanMeansDurable | src/storage/buffer/buffer_pool.cpp:738-772 | a resident or evicting frame that is not dirty holds a page whose published image is settled on disk: durable, or adopted at registration and not synced since |
| BufferDurability.UpdatesReachDisk | src/storage/buffer/buffer_pool.cpp:702-772 | after MarkDirty or NewPage publishes an update, whatever runs next short of discarding the file, the page is in a dirty frame or the synced disk holds its last published image; and it is on the synced disk once its file is retired or the pool shut down |
| BufferDurability.CleanUpdateIsDurable | src/storage/buffer/buffer_pool.cpp:738-772 | clean means durable for updates: when the frame of an updated page is clean, the synced disk holds its last published image |
| BufferDurability.CoveredStays | src/storage/buffer/buffer_pool.cpp:504-534 | no step of any task, failed writes and syncs included, takes a published update out of a dirty frame before it is synced |
| BufferDurability.PublicationCovers | src/storage/buffer/page_guard.cpp:130-137 | MarkDirty and a successful NewPage leave their page in a dirty frame |
| BufferTheorems.OnlyGenerationCanFail | src/storage/buffer/buffer_pool.cpp:738-772 | while a page is written back its frame keeps PageId and epoch, so the final recheck cleans it if and only if the write and sync succeeded and no mutation was published since the copy |
| BufferTheorems.FrameConservation | src/storage/buffer/buffer_frame.h:20-53 | each frame is on the free list and no call owns it, or acquired by a call that exists and has not bound it yet, or bound by exactly one table entry with its own page; never two of these, and never two owning calls; reading implies loading, writing implies dirty and resident or evicting, pins imply resident |
| BufferTheorems.FreeListIsDistinct | src/storage/buffer/buffer_pool.cpp:551-556 | the free list holds each frame at most once, and only FREE ones |
| BufferTheorems.PinAccounting | src/storage/buffer/buffer_pool.cpp:275-312 | a frame's pin count is the number of guards, callers and joiners that own a pin, at most the maximum |
| BufferTheorems.LoaderIsNamed | src/storage/buffer/buffer_pool.cpp:314-375 | a task that loads a page is the one its table entry names |
| BufferTheorems.SingleLoader | src/storage/buffer/buffer_pool.cpp:314-375 | two tasks that load the same page are one: at most one read per PageId is in flight |
| BufferOutcomes.ClaimsBecomePins | src/storage/buffer/buffer_pool.cpp:408-426 | publishing a load turns its claims into pins exactly once: loader and joiners own one pin each and the count is the claims |
| BufferOutcomes.FailedLoadSettles | src/storage/buffer/buffer_pool.cpp:366-371 | a failed load erases its mapping and frees its frame, and changes no file, no published image and no disk page |
| BufferOutcomes.FailureReachesJoiners | src/storage/buffer/buffer_pool.cpp:289-312 | every joiner of a failed load wakes to the error and owns no pin |
| BufferOutcomes.FailedEvictionRestores | src/storage/buffer/buffer_pool.cpp:516-526 | a failed eviction writeback leaves the victim resident, mapped, idle and dirty with its bytes, and the caller gives up without another victim |
| BufferTheorems.RetirementSettles | src/storage/buffer/buffer_pool.cpp:121-183 | when RetireFile with FLUSH_DIRTY succeeds the file has no mapping, its frames are free, and every published image of it is settled on disk; that updates are durable then is BufferDurability.UpdatesReachDisk |
| BufferTheorems.ClosedIsQuiescent | src/storage/buffer/buffer_pool.cpp:854-870 | in a closed pool no frame is pinned, dirty or in I/O |
| BufferTheorems.ClosedIsSettled | src/storage/buffer/buffer_pool.cpp:854-870 | and every published image is settled on disk |
| BufferTheorems.ShutdownLasts | src/storage/buffer/buffer_pool.cpp:854-870 | once Shutdown has succeeded both stay true over every further run |
| BufferAppend.BoundsMoveByOne | src/storage/buffer/buffer_pool.cpp:686-697 | a published bound moves only when a creation is published, and then by exactly one, to include the old bound's page |
| BufferAppend.WrongNumberOnlyWhenEmpty | src/storage/buffer/buffer_pool.cpp:626-648 | a creation's number is always the bound, so the wrong-page-number branch is taken if and only if the file was registered with no page |
| BufferAppend.RegistrationIsCurrent | src/storage/buffer/buffer_pool.cpp:81-119 | registration keeps the append discipline if and only if the count it read is still the file's, or is one short because of a creation that was never published |
| BufferDiscipline.RegistrationAdoptsAll | src/storage/buffer/buffer_pool.cpp:81-119 | after registration with a current count exactly the pages published before and those within the physical count are published, abandoned creations included |
| BufferDiscipline.DisciplineKeepsCounts | src/storage/buffer/buffer_pool.cpp:81-119 | if RegisterFile is never called for a file that is registered or being registered, every registration opens its file with a current count |
| BufferDiscipline.DisciplinedRunsAppend | src/storage/buffer/buffer_pool.cpp:561-697 | over every such run of a new pool the physical count is the bound or the bound plus one, and nothing is published past the bound |
| BufferDiscipline.NumbersAreConsecutive | src/storage/buffer/buffer_pool.cpp:601-697 | while a file stays registered, over any run successful NewPage calls return consecutive numbers from the bound on, and the bound advances by exactly their count |
| BufferDiscipline.NumbersIncrease | src/storage/buffer/buffer_pool.cpp:561-697 | along a disciplined run a later NewPage of a file returns a larger number, whatever is retired, discarded or registered again in between |
| BufferStale.StaleRegistrationLosesPage | src/storage/buffer/buffer_pool.cpp:81-119 | a run from a new pool in which two registrations read one count: a published and flushed page cannot be fetched afterwards, and the next NewPage returns its number and overwrites it |
| BufferStale.PageOneImages | src/storage/buffer/buffer_pool.cpp:428-440 | the two images of that run can differ outside the checksum field |
| BufferPreservation.OwnerPins | src/storage/buffer/buffer_pool.cpp:875-886 | a task that owns a pin finds its frame's count positive, so Unpin never underflows |
| BufferPools.BufferPool.constructor | src/storage/buffer/buffer_pool.cpp:56-67 | all frames free and on the free list, no file, no mapping |
| BufferPools.BufferPool.CheckFetchable | src/storage/buffer/buffer_pool.cpp:217-238 | refuses exactly as the machine does: quiescing, unknown or retiring file, page zero or at or past the bound |
| BufferPools.BufferPool.PinPage | src/storage/buffer/buffer_pool.cpp:240-312 | one critical section of PinPage: refusal, pin of a resident page, wait for an eviction, claim on a running load or a new intent, with the state each leaves |
| BufferPools.BufferPool.BindFrame | src/storage/buffer/buffer_pool.cpp:345-353 | binds a free frame to the load's intent with a new epoch before the read starts |
| BufferPools.BufferPool.FailLoadOperation | src/storage/buffer/buffer_pool.cpp:325-336 | removes the entry and completes the load without a frame |
| BufferPools.BufferPool.PublishLoadOperation | src/storage/buffer/buffer_pool.cpp:408-426 | makes the frame resident with one pin for the loader and one for each claim |
| BufferPools.BufferPool.IsVictimEligible | src/storage/buffer/buffer_pool.cpp:446-456 | decides eligibility: resident, unpinned, idle, and of an active file |
| BufferPools.BufferPool.FindVictim | src/storage/buffer/buffer_pool.cpp:469-477 | asks the replacer with every frame's eligibility; only hand and bits change |
| BufferPools.BufferPool.TakeFreeFrame | src/storage/buffer/buffer_pool.cpp:463-467 | takes the last frame of the free list |
| BufferPools.BufferPool.ReserveFrame | src/storage/buffer/buffer_pool.cpp:496-502 | marks victim and entry EVICTING, nothing else |
| BufferPools.BufferPool.RestoreFrame | src/storage/buffer/buffer_pool.cpp:516-526 | after a failed writeback the victim is resident and still dirty |
| BufferPools.BufferPool.Reset | src/storage/buffer/buffer_pool.cpp:538-551 | clears identity, state, pins and dirtiness, keeps generation and epoch |
| BufferPools.BufferPool.EvictFrame | src/storage/buffer/buffer_pool.cpp:529-534 | erases the victim's mapping and resets its frame |
| BufferPools.BufferPool.Release | src/storage/buffer/buffer_pool.cpp:553-556 | appends the frame to the free list |
| BufferPools.BufferPool.BindConstruction | src/storage/buffer/buffer_pool.cpp:650-659 | binds a frame and an entry to the page being created, with a new epoch |
| BufferPools.BufferPool.AbortConstruction | src/storage/buffer/buffer_pool.cpp:668-684 | erases the entry, resets and frees the frame |
| BufferPools.BufferPool.PublishConstruction | src/storage/buffer/buffer_pool.cpp:686-697 | makes the page resident, dirty and pinned once, and advances the bound |
| BufferPools.BufferPool.ReconcileWriteback | src/storage/buffer/buffer_pool.cpp:762-772 | ends the writeback, and cleans only a frame with the same page, epoch and generation |
| BufferPools.BufferPool.CollectDirty | src/storage/buffer/buffer_pool.cpp:810-831 | lists every dirty resident page of the file, or of all files, exactly once |
| BufferPools.BufferPool.FileIsDrained | src/storage/buffer/buffer_pool.cpp:142-158 | decides RetireFile's wait: no load, eviction, creation, pin or I/O of the file |
| BufferPools.BufferPool.PoolIsDrained | src/storage/buffer/buffer_pool.cpp:854-870 | decides Shutdown's wait over every frame, entry and file |
| BufferPools.BufferPool.Unpin | src/storage/buffer/buffer_pool.cpp:875-886 | one pin less, nothing else |
| BufferPools.BufferPool.PublishMutation | src/storage/buffer/buffer_pool.cpp:888-899 | the frame becomes dirty and its generation advances |
| BufferPools.BufferPool.OpenFile | src/storage/buffer/buffer_pool.cpp:100-119 | registers a file that is not registered in a pool that is not closing, with the count read earlier |
| BufferPools.BufferPool.RemoveFile | src/storage/buffer/buffer_pool.cpp:166-183 | erases every mapping of the file, frees each of its frames once, then closes the registration |
| PageGuards.PageGuard.constructor | src/storage/buffer/page_guard.cpp:16-20 | a guard owns the pin and latch of one frame |
| PageGuards.PageGuard.Release | src/storage/buffer/page_guard.cpp:48-65 | drops latch and pin once; a second release does nothing |
| PageGuards.PageGuard.TakeFrom | src/storage/buffer/page_guard.cpp:22-31 | a moved-from guard is inert and the residency changes hands untouched |
| PageGuards.PageGuard.MoveAssign | src/storage/buffer/page_guard.cpp:76-113 | move assignment releases its own residency first; onto itself it does nothing |
| PageGuards.ReleaseIsTwoSteps | src/storage/buffer/page_guard.cpp:48-65 | a guard's release is the machine's latch step followed by its pin step |
| PageGuards.ExaminePool | src/storage/buffer/buffer_pool.cpp:240-312 | the class's critical section leaves the pool the machine's fetch step leaves |
| PageGuards.ExamineOutcome | src/storage/buffer/buffer_pool.cpp:240-312 | and its outcome is what the machine's task does next |
| BufferSections.SearchFrame | src/storage/buffer/buffer_pool.cpp:462-502 | one turn of the acquire loop leaves the pool and the call where the machine's search step leaves them, in every state the machine can be in |
| BufferSections.BeginEviction | src/storage/buffer/buffer_pool.cpp:504-534 | likewise what follows a reservation: a clean victim goes at once, a dirty one is copied |
| BufferSections.EndEviction | src/storage/buffer/buffer_pool.cpp:515-534 | likewise the end of an eviction writeback, failed or not |
| BufferSections.EndLoad | src/storage/buffer/buffer_pool.cpp:364-375 | likewise the end of a load, failed or not |
| BufferSections.BindNumber | src/storage/buffer/buffer_pool.cpp:628-659 | likewise the binding of a new page number |
| BufferSections.EndCreation | src/storage/buffer/buffer_pool.cpp:666-697 | likewise the end of a creation, failed or not |
| BufferSections.EndWriteback | src/storage/buffer/buffer_pool.cpp:762-772 | likewise the end of a writeback, failed or not |
| ClockReplacement.FindsNothing | src/storage/buffer/clock_replacer.h:30-48 | the search returns none if and only if no frame is eligible, after two full rotations |
| ClockReplacement.FindsClearFrame | src/storage/buffer/clock_replacer.h:30-48 | the first eligible unreferenced frame in hand order is chosen in one rotation; only eligible frames passed lose their bit; the hand stops just past the choice |
| ClockReplacement.FindsReferencedFrame | src/storage/buffer/clock_replacer.h:30-48 | if every eligible frame is referenced, the first eligible frame is chosen in the second rotation |
| Crc32c.ComputeCrc32c | src/common/crc32c.cpp:14-30 | the bit-at-a-time loop computes the specified CRC |
| Crc32c.BitStepLinear | src/common/crc32c.cpp:20-26 | one bit step distributes over XOR |
| Crc32c.BitStepKernel | src/common/crc32c.cpp:20-26 | one bit step takes only zero to zero, so it is invertible |
| Crc32c.CrcAffine | src/common/crc32c.cpp:14-30 | pairs of equal-length strings with the same bytewise XOR have CRCs with the same XOR |
| Crc32c.BurstDetected | src/common/crc32c.cpp:14-30 | two different strings that differ only inside four consecutive bytes have different CRCs |
| Crc32c.VectorThirtyTwoZeroes | src/common/crc32c.cpp:14-30 | thirty-two zero bytes give the digest of section B.4 of RFC 3720 |
| PageChecksum.ComputePageChecksum | src/storage/page/page_checksum.cpp:17-22 | the checksum of a copy of the page with bytes 16..19 zeroed |
| PageChecksum.FinalizePageChecksum | src/storage/page/page_checksum.cpp:24-29 | writes the checksum into bytes 16..19 and no other |
| PageChecksum.VerifyPageChecksum | src/storage/page/page_checksum.cpp:31-35 | compares the stored and the computed checksum |
| PageChecksum.ChecksumIgnoresField | src/storage/page/page_checksum.cpp:17-22 | the checksum does not depend on bytes 16..19 |
| PageChecksum.FinalizeVerifies | src/storage/page/page_checksum.cpp:24-35 | a finalized page verifies and differs from the page only in bytes 16..19 |
| PageChecksum.BurstFailsVerification | src/storage/page/page_checksum.cpp:24-35 | a verifying page changed only inside four consecutive bytes outside 16..19 never verifies |
| Bytes.EncodeLittleEndian | src/common/encoding.h:34-50 | writes exactly the little-endian digits, or nothing if the span is too short |
| Bytes.DecodeLittleEndian | src/common/encoding.h:52-69 | reads the field back, or refuses a span that is too short |
| Bytes.DecodeEncode | src/common/encoding.h:34-69 | decoding what was encoded returns the value |
| Bytes.EncodeDecode | src/common/encoding.h:34-69 | encoding what was decoded returns the bytes |
| HeapController.HeapPage.Initialize | src/storage/heap/heap_page.cpp:486-508 | writes a fresh empty page, or refuses page number zero or the invalid one and changes nothing |
| HeapController.HeapPage.Validate | src/storage/heap/heap_page.cpp:515-562 | full validation: both headers, or the first failure in the order headers, directory, ranges, tuples, free chain, with slot, earlier range and tuple detail |
| HeapController.HeapPage.ValidateStructure | src/storage/heap/heap_page.cpp:515-562 | the same without the tuples |
| HeapController.HeapPage.Insert | src/storage/heap/heap_page.cpp:564-635 | returns the new slot and writes tuple, slot and header, or reports the specified error and changes no byte |
| HeapController.HeapPage.MarkDead | src/storage/heap/heap_page.cpp:637-691 | buries one NORMAL slot, or reports the specified error and changes no byte |
| HeapController.HeapPage.Compact | src/storage/heap/heap_page.cpp:693-719 | leaves the compacted page, or reports the specified error and changes no byte |
| HeapController.HeapPage.TupleBytes | src/storage/heap/heap_page.cpp:721-738 | the bytes of a NORMAL slot of a structurally valid page |
| HeapPages.InitializeIsEmpty | src/storage/heap/heap_page.cpp:486-508 | a fresh page validates and is the empty list |
| HeapPages.InsertAppends | src/storage/heap/heap_page.cpp:564-635 | an accepted insert appends the tuple, returns the number of slots before as its id, and keeps the page valid |
| HeapPages.MarkDeadBuries | src/storage/heap/heap_page.cpp:637-691 | an accepted MarkDead turns exactly one live item into a tombstone and keeps the page valid |
| HeapPages.MarkDeadAcceptsLive | src/storage/heap/heap_page.cpp:637-691 | on a valid page MarkDead accepts exactly the live positions, and says out of range or already dead for the others |
| HeapPages.CompactChangesNothing | src/storage/heap/heap_page.cpp:693-719 | compaction keeps the page valid and the list unchanged |
| HeapPages.StepRefines | src/storage/heap/heap_page.cpp:486-738 | each operation on a valid page is one step of the list; a rejected one changes nothing |
| HeapPages.RunsRefine | src/storage/heap/heap_page.h:150-160 | over every run full validation keeps succeeding, and the page is the list after the same operations: accepted inserts append in order, accepted MarkDeads bury one item each, Compact and rejected operations change nothing |
| HeapPages.LiveUntilMarkedDead | src/storage/heap/heap_page.cpp:637-691 | over a run a live item stays itself if and only if no MarkDead names its slot |
| HeapPages.InsertedUntilMarkedDead | src/storage/heap/heap_page.cpp:721-738 | whatever follows an accepted insert, TupleBytes of its slot returns the tuple if and only if no MarkDead has named the slot |
| HeapPages.TupleBytesReadsList | src/storage/heap/heap_page.cpp:721-738 | TupleBytes returns the inserted tuple until MarkDead and nothing after or past the end |
| HeapPages.GoodValidates | src/storage/heap/heap_page.cpp:523-562 | the refinement's page invariant implies both validations |
| HeapStructure.BadSlotIff | src/storage/heap/heap_page.cpp:201-230 | the directory pass succeeds if and only if every slot decodes and passes its descriptor check |
| HeapStructure.AdjacentCheckIsDisjointness | src/storage/heap/heap_page.cpp:235-258 | the sorted-adjacent check succeeds if and only if all retained ranges are pairwise disjoint |
| HeapStructure.ChainCheckIsExact | src/storage/heap/heap_page.cpp:291-331 | the free-chain walk terminates, and succeeds if and only if the chain from the head visits every UNUSED slot exactly once and nothing else |
| HeapStructure.StructureIsExact | src/storage/heap/heap_page.cpp:523-562 | structural validation succeeds if and only if headers, slots, ranges and chain satisfy their declarative properties |
| HeapValidator.PageCheckIsExact | src/storage/heap/heap_page.cpp:263-288 | full validation is structural validation plus the validity of every retained tuple |
| HeapValidator.CheckStoredGrows | src/storage/heap/heap_page.cpp:82-128 | a tuple that is valid stays valid when the directory grows |
| HeapValidator.Resolve | src/storage/heap/heap_page.cpp:471-481 | returns the first layout of the history with the schema, and none if and only if the schema is zero or no layout has it |
| HeapValidator.DecodeSlotDirectory | src/storage/heap/heap_page.cpp:201-230 | the loop returns the first bad slot, or the directory, its retained slots and its UNUSED flags |
| HeapValidator.CheckRetainedRangesDisjoint | src/storage/heap/heap_page.cpp:235-258 | the loop over the sorted ranges returns the first overlap |
| HeapValidator.ValidateRetainedTuples | src/storage/heap/heap_page.cpp:263-288 | the loop returns the first retained tuple that is invalid |
| HeapValidator.WalkChain | src/storage/heap/heap_page.cpp:291-331 | the walk loop terminates and computes the visited set or the slot met twice |
| HeapValidator.ValidateFreeSlotChain | src/storage/heap/heap_page.cpp:291-331 | links, head, walk and the comparison of visited and UNUSED slots |
| HeapValidator.ValidateWith | src/storage/heap/heap_page.cpp:523-562 | the passes in order, with or without the tuple pass |
| HeapCompaction.OrderDescends | src/storage/heap/heap_page.cpp:354-419 | sorting by descending source offset puts every live range wholly below its predecessor |
| HeapCompaction.TopAboveSource | src/storage/heap/heap_page.cpp:395-419 | packing only moves tuples towards the page end and never below the old upper |
| HeapCompaction.UnreadSourcesIntact | src/storage/heap/heap_page.cpp:441-462 | no move overwrites a source that has not been read yet |
| HeapCompaction.PackedReadsSource | src/storage/heap/heap_page.cpp:441-462 | after any number of moves each packed tuple reads its source bytes |
| HeapCompacted.PlannedCases | src/storage/heap/heap_page.cpp:354-419 | live slots get packed offsets, DEAD slots lose their bytes, states and links stay |
| HeapCompacted.PlannedPlannable | src/storage/heap/heap_page.cpp:403-419 | the planned directory is valid under the new upper, which is not below the old one |
| HeapCompacted.NewUpperIsExact | src/storage/heap/heap_page.cpp:395-419 | upper becomes 8192 minus the sum of the live lengths |
| HeapCompacted.CompactionKeepsSound | src/storage/heap/heap_page.cpp:693-719 | the compacted page is structurally valid with upper 8192 minus the live lengths, at least the old one |
| HeapCompacted.CompactionKeepsTuple | src/storage/heap/heap_page.cpp:441-462 | every live slot has the same length and reads the same bytes afterwards |
| HeapCompacted.CompactTwice | src/storage/heap/heap_page.cpp:693-719 | a second Compact changes no byte |
| HeapController.GoodPagesCompact | src/storage/heap/heap_page.cpp:354-394 | compaction never meets an unsupported slot on a page the operations produced |
| HeapController.AcceptedIsPlannable | src/storage/heap/heap_page.cpp:354-394 | whatever page Compact accepts has only NORMAL and DEAD slots in disjoint ranges |
| HeapController.CollectLive | src/storage/heap/heap_page.cpp:354-394 | decodes the directory and collects the live slots, or returns the first unsupported one |
| HeapController.PackLive | src/storage/heap/heap_page.cpp:395-419 | the packing loop computes the planned directory and upper |
| HeapController.MoveTuples | src/storage/heap/heap_page.cpp:441-462 | the loop of overlapping in-place moves leaves what the moves do one after another |
| HeapController.ApplyCompaction | src/storage/heap/heap_page.cpp:421-462 | moves, directory and header leave the compacted page |
| HeapFormat.SlotReadsBack | src/storage/heap/heap_page_format.cpp:89-140 | a written slot entry decodes to itself |
| HeapFormat.SlotCanonical | src/storage/heap/heap_page_format.cpp:89-140 | writing back a decoded slot entry changes nothing |
| HeapFormat.HeaderReadsBack | src/storage/heap/heap_page_format.cpp:34-87 | a written heap header decodes to itself |
| HeapFormat.HeaderCanonical | src/storage/heap/heap_page_format.cpp:34-87 | writing back the decoded heap header changes nothing |
| HeapFormat.CommonReadsBack | src/storage/page/page_header.h:55-130 | a written common header decodes to itself |
| HeapFormat.EncodeHeapSlotEntry | src/storage/heap/heap_page_format.cpp:89-109 | writes the eight bytes of the entry, or nothing if the span is too short |
| HeapFormat.EncodeHeapPageHeader | src/storage/heap/heap_page_format.cpp:34-55 | writes the bytes of the header, or nothing if the span is too short |
| TupleLayouts.BuildTuplePhysicalLayout | src/storage/tuple/tuple_layout.cpp:214-267 | the builder's loop computes the specified layout or failure; its overflow branches are never taken |
| TupleLayouts.BuildsPacked | src/storage/tuple/tuple_layout.cpp:214-267 | the builder succeeds if and only if bitmap and fixed area fit, and then its layout is packed and has the given columns |
| TupleLayouts.PackedIsBuilt | src/storage/tuple/tuple_layout.cpp:214-267 | every packed layout is one the builder makes |
| TupleLayouts.StartsOrdered | src/storage/tuple/tuple_layout.cpp:238-251 | columns are ordered, disjoint and inside the fixed area |
| TupleLayouts.MarkNull | src/storage/tuple/tuple_layout.cpp:94-128 | SetNull and ClearNull change one bit of the bitmap, or refuse and change nothing |
| TupleLayouts.MarkedIsNull | src/storage/tuple/tuple_layout.cpp:78-128 | after marking, IsNull answers accordingly for that column and as before for every other |
| TupleHeaders.EncodeTupleHeader | src/storage/tuple/tuple_header.cpp:34-77 | writes a header that decodes to the given one if it is valid and fits, and nothing otherwise |
| TupleHeaders.SameFront | src/storage/tuple/tuple_header.cpp:34-125 | the header fields depend on the first 48 bytes only, and determine them |
| TupleCodec.PlanTupleSize | src/storage/tuple/tuple_layout.cpp:181-212 | the planner's loop computes the specified plan or failure |
| TupleCodec.ScalarRoundTrip | src/storage/tuple/tuple_codec.cpp:158-291 | an encoded scalar decodes to its value |
| TupleCodec.ScalarCanonical | src/storage/tuple/tuple_codec.cpp:158-291 | re-encoding a decoded scalar gives its bytes |
| TupleEncoder.PlanIsExact | src/storage/tuple/tuple_layout.cpp:181-212 | for admitted values the plan fails if and only if the tuple would be too large, and otherwise is the encoded size |
| TupleEncoder.EncodeFixedScalar | src/storage/tuple/tuple_codec.cpp:158-228 | writes the scalar of the column's type, or refuses a mismatch or a short destination and writes nothing |
| TupleEncoder.StepPrefix | src/storage/tuple/tuple_codec.cpp:368-418 | writing one more column keeps everything encoded so far and completes that column |
| TupleEncoder.EncodeColumn | src/storage/tuple/tuple_codec.cpp:368-418 | the loop body never fails and advances the payload cursor by the payload it wrote |
| TupleEncoder.WriteColumns | src/storage/tuple/tuple_codec.cpp:362-425 | all columns are written and the cursor ends at the planned size |
| TupleEncoder.EncodeTuple | src/storage/tuple/tuple_codec.cpp:293-425 | returns the specified refusal, or bytes that are an encoding of the values under the header |
| TupleDecoder.ValidateTuple | src/storage/tuple/tuple_codec.cpp:427-539 | the two loops decide as specified, with the first failure in the source's order |
| TupleDecoder.EncodingValidates | src/storage/tuple/tuple_codec.cpp:293-581 | round trip: whatever EncodeTuple accepts and writes validates with the same header, and every column decodes to its value |
| TupleDecoder.AgreeingValidates | src/storage/tuple/tuple_codec.cpp:427-539 | the validator looks at no fixed byte of a NULL column that is not VARCHAR |
| TupleCanonical.ScannedChain | src/storage/tuple/tuple_codec.cpp:493-539 | in an accepted tuple the VARCHAR descriptors tile the payload with no gap or overlap |
| TupleCanonical.ValidReencodes | src/storage/tuple/tuple_codec.cpp:427-581 | an accepted tuple re-encodes from its decoded values and header to itself with unread bytes zeroed |
| TupleCanonical.ValidationIsExact | src/storage/tuple/tuple_codec.cpp:293-539 | ValidateTuple accepts a byte string if and only if it agrees with some accepted encoding |
| TupleCanonical.EncodingIsUnique | src/storage/tuple/tuple_codec.cpp:293-425 | values and header determine the encoding: the encoder has one output |
| FsmCategories.CategoriesAdjoint | src/storage/heap/fsm_page.cpp:53-68 | a category is at most that of a gap if and only if its minimum bytes fit the gap's usable bytes |
| FsmCategories.RequestsAdjoint | src/storage/heap/fsm_page.cpp:65-82 | a category suffices for a request if and only if its minimum bytes cover the request |
| FsmCategories.CategoryRoundTrip | src/storage/heap/fsm_page.cpp:53-82 | each category is recovered from its minimum bytes |
| FsmCategories.SufficientCategoryFits | src/storage/heap/fsm_page.cpp:53-82 | a sufficient category means tuple and slot fit the gap it came from |
| FsmCategories.SpaciousGapIsFound | src/storage/heap/fsm_page.cpp:53-82 | a gap with 31 usable bytes to spare has a sufficient category |
| FsmCategories.MarginIsTight | src/storage/heap/fsm_page.cpp:53-82 | 30 bytes to spare do not always suffice |
| FsmCategories.GuardsAreExact | src/storage/heap/fsm_page.cpp:23-44 | the overflow guards pass if and only if every page number they protect is a real one |
| FsmCategories.LocationInverts | src/storage/heap/fsm_page.cpp:84-100 | every real heap page has a location whose first heap page plus entry is the page again; the mapping-overflow branch is never taken |
| FsmCategories.LocationIsOnto | src/storage/heap/fsm_page.cpp:84-100 | every entry that names a real heap page is that page's location |
| FsmPages.FsmPage.Initialize | src/storage/heap/fsm_page.cpp:155-199 | writes a fresh page of zero categories, or the specified error and no byte |
| FsmPages.FsmPage.Validate | src/storage/heap/fsm_page.cpp:206-263 | the header checks and the scan of the suffix, with the first failure in the source's order |
| FsmPages.FsmPage.Category | src/storage/heap/fsm_page.cpp:265-276 | the category of a tracked entry of a valid page; an invalid page with its error, or an entry out of range, otherwise |
| FsmPages.FsmPage.SetCategory | src/storage/heap/fsm_page.cpp:278-291 | replaces the one byte of a tracked entry of a valid page, or reports the same errors and changes nothing |
| FsmPages.FreshFsmIsValid | src/storage/heap/fsm_page.cpp:155-263 | a fresh page validates with the header it was given and every category is zero |
| FsmPages.SetCategoryKeeps | src/storage/heap/fsm_page.cpp:206-291 | setting a tracked category keeps the page valid with the same header |
| FsmPages.NonzeroEntryIff | src/storage/heap/fsm_page.cpp:255-260 | the suffix scan finds a nonzero entry if and only if some byte past the count is nonzero |
| FsmIndex.FsmCandidateIndex.Upsert | src/storage/heap/fsm_candidate_index.cpp:20-52 | the index is the plain map with the page set, for every real page number; buckets and reverse map stay one partition |
| FsmIndex.FsmCandidateIndex.Remove | src/storage/heap/fsm_candidate_index.cpp:54-68 | the plain map without the page |
| FsmIndex.FsmCandidateIndex.Clear | src/storage/heap/fsm_candidate_index.cpp:90-95 | the empty map |
| FsmIndex.FsmCandidateIndex.Size | src/storage/heap/fsm_candidate_index.cpp:97-99 | the number of tracked pages |
| FsmIndex.FsmCandidateIndex.FindCandidate | src/storage/heap/fsm_candidate_index.cpp:70-88 | the tracked page with the least category and then least number among sufficient categories, none if there is none, an error for an impossible size |
| FsmIndex.CandidateIsUnique | src/storage/heap/fsm_candidate_index.cpp:70-88 | at most one answer satisfies that description |
| FsmIndex.CandidateIsUsable | src/storage/heap/fsm_candidate_index.cpp:70-88 | with categories computed from real gaps, the answer has room for the tuple and its slot |
| FsmIndex.CandidateIsFound | src/storage/heap/fsm_candidate_index.cpp:70-88 | and it is not empty while some tracked page has 31 usable bytes to spare |
| FsmPlacement.CandidateAcceptsInsert | src/storage/heap/heap_page.cpp:564-635 | Insert of that size into the page found never fails for lack of space |
| FileSuperblocks.EncodeFileSuperblock | src/storage/file/file_superblock.cpp:87-136 | writes one whole superblock page, or refuses an unsupported kind or a short buffer and writes nothing |
| FileSuperblocks.SuperblockRoundTrip | src/storage/file/file_superblock.cpp:87-223 | decoding an encoded superblock returns it |
| FileSuperblocks.SuperblockCanonical | src/storage/file/file_superblock.cpp:138-223 | a page decodes only if it is exactly what encoding the result writes |
| FileSuperblocks.SuperblockBijection | src/storage/file/file_superblock.cpp:87-223 | a buffer decodes to a superblock if and only if its kind is supported and the first page is what encoding it writes; exactly the short buffers are refused as too small |

## Left out

- DiskManager, PageFile, page_io: POSIX calls and descriptors; the machine's disk has volatile and durable images, page counts, arbitrary failures and torn writes instead. File extension succeeds or fails as a whole.
- Liveness: no claim that a waiting task runs, that latches are fair or that condition variables wake; only loops with a measure in the code (the free-chain walk, the victim search, the scans) are shown to end. A wait is a step that may be taken when its predicate holds.
- Observer contents, the pool inspector, error message strings, operation tags and debug poison bytes: diagnostics. `Notify` is only a point where other tasks may run.
- Owner validators and page initializers: an arbitrary verdict, and an arbitrary new image that keeps the page number.
- Concurrent RetireFile calls on one file: outside the stated contract (src/storage/buffer/buffer_pool.h:116-117), as are callers that flush or retire a page whose guard they hold.
- BufferTheorems.CleanMeansDurable: a page adopted at registration counts as durable only once a sync has covered it, because registration does not sync the file.
- BufferTheorems.RetirementSettles: stated for FLUSH_DIRTY; DISCARD_DIRTY drops the images of the file's dirty pages from the abstract map, and a later registration adopts whatever the disk holds.
- BufferPools.BufferPool.RemoveFile: requires the file's mappings to use different frames inside the pool, which the machine's invariant provides for every reachable state.
- BufferPools.BufferPool.OpenFile: the page count is an argument, because the source reads it before it takes the mutex.
- The 64-bit modification generation and binding epoch, and the 32-bit pin count below its limit, are unbounded here; the pin limit itself is modelled.
- Threads as such: the class BufferPool and the guards are sequential objects, each method one critical section; interleaving is the machine's, tied to the class through `View`. A guard's debug checksum appears as the condition that its changes have been published before release; its binding epoch as the invariant's PinnedFramesStay.
- std::sort, std::set, std::unordered_map, std::memmove: their specifications (sorted permutation, finite set and map, simultaneous copy).
- Allocation failure and exceptions, hashing, Result and Status wrappers, strong id types, assertion macros.
- Physical types outside the enumeration: the builder's invalid-type branch and the codecs' unknown-type branches have no input here.
- FLOAT64 values: carried as their 64-bit pattern, which is what the codec stores.
- HeapController.ApplyCompaction: encodes slots and header straight into the page, where the source goes through two scratch buffers that cannot fail.
- Bitwise operations on header flags, null bitmaps and shifts are modelled by arithmetic on bytes; only the CRC uses machine words.
- PageId and Rid codecs: compositions of the integer codec with nothing of their own.
- WAL, LSN ordering, MVCC visibility, slot reuse (DEAD to UNUSED): not implemented in these files.
- Documentation tooling, CMake, the main program and the benchmarks.
