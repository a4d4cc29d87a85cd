# OSv: proofs about the synchronisation, memory and ring-buffer core

OSv is a unikernel. This project models the parts of it where a mistake is hardest to see, one Dafny module for each:

- `LfMutex`: the lock-free mutex and its responsibility hand-off, over all interleavings of `lock`, `try_lock`, `unlock`
  and `send_lock`, one atomic access per step.
- `PageRanges`: the boundary-tag page-range allocator, as a class over its bitmap, headers, footers and lists. It refines
  a plain set of free pages.
- `Vring`: the virtio split ring (section 2.4 of VIRTIO 1.0) with direct and indirect chains and 16-bit counters.
- `PageTable`, `TlbGather`, `Unmap`, `VmaList`: the four-level page-table walker, the order of TLB flushes and page frees,
  the two of them together, and the list of virtual memory areas. The walker and the list refine maps from addresses.
- `Rcu`: deferred callbacks and the per-CPU generation protocol.
- `Sched`, `Cputime`: thread states, run queues and incoming wake-up queues; the packed running-time estimate.
- `TimerTask`: per-CPU timer tasks with cancel, reschedule and destroy racing against fire.
- `Condvar`, `CondvarRace`: wait morphing, as a class that links its records in place, and as a state machine in which
  the loops of several `wake_all` calls run beside later waits and timeouts.
- `RwLock`, `TraceRing`, `ElfHash`: the read-write lock, the trace ring with its dump, and symbol lookup by hash.
- `Common`: a few definitions that several modules use.

Concurrent protocols are state machines: a state, an `Enabled` predicate, a `Next` function, and theorems about every
state of every sequence of moves. A failed `assert` of the source is a `crashed` state. Data structures that one thread at
a time updates in place are classes with `modifies` clauses; each method is tied to a function of the old state.

Modelling decisions:

- Atomic accesses are sequentially consistent.
- Allocation results, device capabilities, the device's event index, the result of `validate_perm`, the page provider's
  answers, clocks and thread runtimes are parameters or values chosen by a move.
- Queues, lists and trees from headers are sequences, sets or multisets with atomic operations. Where the source itself
  links them in place (`condvar`, the descriptor free list, boundary tags) the links are modelled.
- Machine words wrap where that matters: the mutex sequence (32 bits), ring counters (16 bits), `find_hole` and the
  time estimate (64 bits).

What the code does not do, although its comments or callers may expect it; each is stated exactly:

- `send_lock` can fail its assertion when a thread sleeps between reading the hand-off and its compare-and-swap while the
  sequence number goes once round 2^32 - 1 publications, and only then. The other assertions of the mutex always hold.
- The comment in `unlock` asks why more than two rounds of its loop are ever needed. They are not, unless an unlocker
  sleeps through such a cycle before it takes its own hand-off back; then a third round is possible.
- `alloc` of the page-range allocator can fail although a range is large enough, because its linear search returns null
  even when it has found one.
- The page-table walk takes a huge page whose valid bit is off for a missing table, so `unpopulate` leaves such a page
  mapped when the range cuts it.
- `operate_range` aligns start and size one by one and can miss the last bytes of an unaligned range: 4096 bytes from
  address 1 leave byte 4096 out.
- `unpopulate` drops second-level tables without asking for a flush. A call returns with something unflushed exactly when
  the range holds a second-level table as a whole and no mapped page that the walk clears.
- `evacuate` erases the list markers for a range that starts at 0 or ends above the top.
- `find_hole` trusts a sum that can wrap at 64 bits, and then returns a place where nothing of that size fits.
- The comment on the time estimate asks for less than 2^41 ns between saving and reading; the code is right up to 2^42.
- `condvar::wait` fails its assertion about the mutex exactly when the last thread that came had another mutex and either
  somebody still waits or a timeout was the last to empty the queue. In the second case nobody else is waiting.
- `cancel_sync` waits once, and its assertion fails if somebody reschedules before it has the mutex again.
- `cancel_sync` can also sleep on with nothing scheduled: the `cancel` of another thread brings the count to zero and wakes
  nobody.
- `kick` counts the buffers added since the last kick in 16 bits, so after 2^16 of them it starts over.

## Model

| member | source | states |
|---|---|---|
| `LfMutex.StepKeepsInv` | core/lfmutex.cc:23-265 | every step of every operation keeps the joint invariant: where the pop right is, what `count` sums up, who owns, where each wait record is, and that an offered hand-off with a queued record has somebody still to look at it |
| `LfMutex.RunKeepsInv` | core/lfmutex.cc:23-265 | that invariant holds in every state of every interleaving by any number of threads |
| `LfMutex.MutualExclusion` | core/lfmutex.cc:23-92 | at most one thread holds the mutex; `owner` names exactly the holder; `count` is the sum of holds and lock requests in progress. What the calls have to do with it is `LocksAreCounted` |
| `LfMutex.OthersKeepDepth` | core/lfmutex.cc:42-46 | no move of another thread changes how often a thread has the mutex |
| `LfMutex.GainsDepth` | core/lfmutex.cc:29-91 | one move of a thread changes how often it has the mutex by its own call or return: one more for a `lock` or `try_lock` that returns with it, recursively or woken by `send_lock` too, one less for `unlock` |
| `LfMutex.LocksAreCounted` | core/lfmutex.cc:23-264 | from the moves of a run, count for each thread the calls that returned with the mutex less its calls of `unlock`: only one thread has a positive count, it is `owner`, `depth` is its count, it is not waiting, and `unlock` may be called exactly by it |
| `LfMutex.OneToken` | core/lfmutex.cc:54-91 | while `count` is positive the right to pop the wait queue is in exactly one place: one thread, or a non-zero `handoff` |
| `LfMutex.LockPopsARecord` | core/lfmutex.cc:62-83 | a `lock` that took the hand-off finds the queue holding its own record and itself not yet woken, so both of its assertions hold |
| `LfMutex.CrashingStep` | core/lfmutex.cc:128-132 | in a state that satisfies the invariant the only step whose assertion can fail is the pop in `send_lock` on an empty queue |
| `LfMutex.OnlySendPopCrashes` | core/lfmutex.cc:107-135 | so in every run, wrap of the sequence number included, no other assertion of `lock`, `try_lock` or `unlock` fails |
| `LfMutex.StepKeepsSendersSafe` | core/lfmutex.cc:107-135 | one step with a timely sender keeps the queue non-empty for every `send_lock` about to pop, and fails no assertion |
| `LfMutex.TimelyRunNeverCrashes` | core/lfmutex.cc:107-135 | if every `send_lock` does its compare-and-swap less than 2^32 - 1 publications after its load, no assertion fails in the whole run |
| `LfMutex.UntimelySenderCrashes` | core/lfmutex.cc:124-133 | the bound is tight: a run in which the compare-and-swap comes exactly one cycle late is reachable, and its assertion fails |
| `LfMutex.UnlockLoopsAtMostTwice` | core/lfmutex.cc:236-264 | with timely unlockers, a second round of the loop of `unlock` always finds a record to pop, so there is no third |
| `LfMutex.UntimelyUnlockLoopsAgain` | core/lfmutex.cc:236-264 | an unlocker that is one whole cycle late can find the queue empty in its second round |
| `LfMutex.SequenceCycles` | core/lfmutex.cc:250-251 | the published numbers run through 1 to 2^32 - 1 and start over, never 0 |
| `LfMutex.Cycles` | core/lfmutex.cc:177-211 | while one thread sleeps, another can take and publish hand-offs any number of times, leaving everything else as it was |
| `LfMutex.UnlockPublishes` | core/lfmutex.cc:213-257 | an owner that unlocks with nobody queued and somebody counted ends with the next sequence number on offer |
| `LfMutex.TryTakes` | core/lfmutex.cc:200-207 | `try_lock` gets the mutex from a hand-off on offer and counts itself |
| `LfMutex.NoLostWakeup` | core/lfmutex.cc:54-91 | in no reachable state is a hand-off on offer with a record queued and every thread past its check of that hand-off |
| `LfMutex.NeverStuck` | core/lfmutex.cc:243-264 | while `count` is positive some thread can take a step of its own or is the holder and may unlock |
| `PageRanges.ILog2` | include/osv/ilog2.hh:58-66 | the power of two at the result is at most n, the next one is larger |
| `PageRanges.ILog2RoundUp` | include/osv/ilog2.hh:48-56 | the result is the least exponent whose power of two is at least n |
| `PageRanges.RangesAreMaximalRuns` | core/mempool.cc:762-776 | the stored ranges are exactly the maximal runs of the set of free pages, so no two free ranges touch |
| `PageRanges.RangeBefore` | core/mempool.cc:764-769 | the bitmap bit before a block that is being freed is set exactly when a free range ends there, and the back pointer finds it, although inner bits may be stale |
| `PageRanges.RangeAfter` | core/mempool.cc:770-774 | the bit after the block is set exactly when a free range begins there |
| `PageRanges.HoleGrows` | core/mempool.cc:762-776 | taking a free range out next to a block keeps all tables right around the larger hole |
| `PageRanges.HoleShrinks` | core/mempool.cc:575-590 | inserting a piece at either end of a hole keeps all tables right around the smaller hole |
| `PageRanges.HoleCloses` | core/mempool.cc:617-627 | clearing the edge bits, or with `fill` all bits, makes the hole an allocated block that later frees read correctly |
| `PageRanges.ListedInsertHuge` | core/mempool.cc:580-583 | the ordered tree of huge ranges gains exactly the new range, in order, and `_not_empty` stays exact |
| `PageRanges.ListedInsertSmall` | core/mempool.cc:583-586 | the list of its order gains exactly the new range and `_not_empty` stays exact |
| `PageRanges.ListedRemove` | core/mempool.cc:591-610 | the right list loses exactly the range, the others nothing, and `_not_empty` stays exact |
| `PageRanges.PageRangeAllocator.constructor` | core/mempool.cc:541-545 | an allocator without memory: valid tables, nothing free |
| `PageRanges.PageRangeAllocator.SetBits` | core/mempool.cc:617-627 | exactly the two edge bits, or with `fill` all bits of the block, take the value |
| `PageRanges.PageRangeAllocator.Tag` | core/mempool.cc:575-590 | the back pointer and the edge bits of a range: with the range counted in, all tables agree again |
| `PageRanges.PageRangeAllocator.Insert` | core/mempool.cc:575-590 | exactly one range more, in the list of its size, with header, back pointer and bits that agree |
| `PageRanges.PageRangeAllocator.Remove` | core/mempool.cc:603-610 | exactly one range less, the lists and `_not_empty` exact |
| `PageRanges.PageRangeAllocator.MergeBefore` | core/mempool.cc:764-769 | the block joined with the range before it: no free page is lost, and no range ends where the result begins |
| `PageRanges.PageRangeAllocator.MergeAfter` | core/mempool.cc:770-774 | the block joined with the range after it: no free page is lost, and none begins where the result ends |
| `PageRanges.PageRangeAllocator.Free` | core/mempool.cc:762-776 | adds exactly the freed pages to the free set and keeps every table, for any allocated block or union of whole blocks |
| `PageRanges.PageRangeAllocator.Carve` | core/mempool.cc:744-754 | takes n pages out of a range and gives both remainders back: exactly those pages leave the free set |
| `PageRanges.PageRangeAllocator.Alloc` | core/mempool.cc:679-730 | succeeds exactly when a usable range exists; then exactly the returned pages leave the free set; else nothing changes |
| `PageRanges.AllocChoice` | core/mempool.cc:679-717 | the first non-empty bucket, or the largest huge range, decides whether any usable range exists |
| `PageRanges.UsableExactly` | core/mempool.cc:681-689 | `alloc` can use a range exactly when it holds the request and the power of two that the request is rounded up to |
| `PageRanges.AllocMissesAFit` | core/mempool.cc:693-707 | one free range of three pages and a request for three: large enough, and not found |
| `PageRanges.PageRangeAllocator.FirstFit` | core/mempool.cc:803-818 | the first range of a list that fits with its alignment, or none when none does |
| `PageRanges.PageRangeAllocator.FindAligned` | core/mempool.cc:732-741 | the lists it skips hold nothing that fits, so none found means none exists |
| `PageRanges.ShiftAligns` | core/mempool.cc:737-739 | the shift it computes puts the page `offset` pages into the block on a multiple of `alignment` pages |
| `PageRanges.ShiftInBytes` | core/mempool.cc:737-739 | the remainder that the source takes of byte addresses, for whole-page offsets and alignments, is this shift in bytes |
| `PageRanges.NoShiftInBytes` | core/mempool.cc:737-739 | an alignment that divides a page never shifts, as with an alignment of one page |
| `PageRanges.FitsExactly` | core/mempool.cc:732-741 | some range passes the test with the shift exactly when some aligned place of n pages is free |
| `PageRanges.LastInRange` | core/mempool.cc:737-748 | the place that the shift gives is the last aligned one in its run of free pages |
| `PageRanges.PageRangeAllocator.AllocAligned` | core/mempool.cc:732-760 | succeeds exactly when an aligned place for n pages is free anywhere, offset and alignment counted in pages; the result is such a place, the last one in its run of free pages, and exactly its pages leave the free set |
| `PageRanges.RunKeepsBlock` | core/mempool.cc:679-776 | over any sequence of operations an allocated block stays allocated and freeable until it is given back |
| `PageRanges.FilledBlockFreesInPieces` | core/mempool.cc:1474-1498 | any part of a block taken with `fill` may be freed by itself, after any other operations that do not free it |
| `Vring.Virtqueue.constructor` | drivers/virtio-vring.cc:41-76 | all descriptors free and linked, nothing posted |
| `Vring.EachDescriptorOnce` | drivers/virtio-vring.cc:59-68 | every descriptor is on the free list once, or in exactly one place of exactly one chain in flight |
| `Vring.PostKeepsRing` | drivers/virtio-vring.cc:144-185 | posting keeps the whole ring invariant: free list, chains, available and used slots, cookies |
| `Vring.RoomInAvail` | drivers/virtio-vring.cc:179-182 | a free descriptor means a free slot of the available ring, so no entry the device has not read is overwritten |
| `Vring.RoomInUsed` | drivers/virtio-vring.cc:188-221 | a buffer the device holds has a free slot of the used ring |
| `Vring.UsedWindow` | drivers/virtio-vring.cc:188-221 | at most as many completed buffers wait for collection as there are descriptors |
| `Vring.FetchKeepsRing` | drivers/virtio-vring.cc:223-248 | the cookie read is the one posted with the completed buffer, and null when it was read before |
| `Vring.CollectKeepsRing` | drivers/virtio-vring.cc:195-217 | splicing a completed chain in front of the free list keeps the whole ring invariant |
| `Vring.EachCookieOnce` | drivers/virtio-vring.cc:223-248 | no post's cookie is handed out twice, and cookies come in the order of completion |
| `Vring.CookiesConserved` | drivers/virtio-vring.cc:223-248 | at any time the cookies handed out and those outstanding are together exactly the posted ones, as multisets; when all were fetched, every posted cookie came back exactly once |
| `Vring.AllComeBack` | drivers/virtio-vring.cc:188-221 | when everything posted was completed and collected, all descriptors are free again |
| `Vring.DeviceReadsPosted` | drivers/virtio-vring.cc:167-174 | a device that follows a direct chain reads exactly the posted scatter-gather list |
| `Vring.DeviceReadsTable` | drivers/virtio-vring.cc:150-174 | a device that follows an indirect table reads exactly the posted list |
| `Vring.TrimWrapped` | drivers/virtio-vring.cc:200-201 | masking a wrapped 16-bit counter gives the slot of the true count |
| `Vring.EventInWindow` | drivers/virtio-vring.cc:290-291 | the 16-bit comparison of `kick` holds exactly when the device's event is among the entries added since the last kick |
| `Vring.Virtqueue.Counters` | drivers/virtio-vring.cc:195-201 | comparing and masking the 16-bit counters answers the question about the true counts |
| `Vring.Virtqueue.GetBufElem` | drivers/virtio-vring.cc:223-248 | the cookie of the next completed buffer, once, and the length that the device gave with this completion, wrap of the counters included; null when there is none |
| `Vring.Virtqueue.GetBufFinalize` | drivers/virtio-vring.hh:146-154 | the fetched buffer counts as passed, may now be collected, and the next one may be fetched |
| `Vring.Virtqueue.ChainEnd` | drivers/virtio-vring.cc:206-212 | the walk over next flags ends at the last descriptor of the chain and counts all of them |
| `Vring.Virtqueue.CollectOne` | drivers/virtio-vring.cc:195-218 | one round of the collection |
| `Vring.Virtqueue.GetBufGc` | drivers/virtio-vring.cc:188-221 | all finalized buffers are collected, in order |
| `Vring.GcFrees` | drivers/virtio-vring.hh:168-171 | collection frees at least one descriptor for each finalized buffer and never more than there are |
| `Vring.Virtqueue.EffectiveAvailRingCount` | drivers/virtio-vring.hh:168-171 | the 16-bit sum is the true count and a lower bound for what is free after collection |
| `Vring.Virtqueue.AvailRingHasRoom` | drivers/virtio-vring.cc:256-262 | a yes promises that `add_buf` finds room, although it decides about indirect tables anew; after collection a no is exact |
| `Vring.Virtqueue.Fill` | drivers/virtio-vring.cc:167-174 | the list is written along the chain, with the next flag on all but the last, and links untouched |
| `Vring.Virtqueue.BuildTable` | drivers/virtio-vring.cc:150-174 | the indirect table holds the list, and the loop ends with the descriptor's own next link |
| `Vring.Virtqueue.PostChain` | drivers/virtio-vring.cc:147-185 | one buffer more in flight, made of the front of the free list, in the next slot of the available ring |
| `Vring.Virtqueue.AddBuf` | drivers/virtio-vring.cc:122-186 | collects, then posts exactly when there is room and memory; else the ring is only collected; kicks exactly when there is no room and `kick` would notify |
| `Vring.Virtqueue.Kick` | drivers/virtio-vring.cc:279-319 | with an event index the device is notified exactly when its event is among the last `added` entries or `added` is at least 2^15 - 1, where `added` counts since the last kick and wraps at 2^16; otherwise exactly when notifications are on |
| `PageTable.IndexIsChild` | core/mmu.cc:424-427 | the index bits of an address name the entry whose region contains it |
| `PageTable.CoverIn` | core/mmu.cc:402-427 | the entry that decides about a page is inside the region searched and contains the page |
| `PageTable.SplitKeepsTranslation` | core/mmu.cc:202-208 | splitting a huge page leaves the translation and the flags of all its 512 pages as they were |
| `PageTable.Open` | core/mmu.cc:402-423 | the table that takes the place of a missing table or a huge page translates every page alike |
| `PageTable.PageDone` | core/mmu.cc:434-448 | `page` on an entry inside the range has the meaning of the operation for each of its pages, where the meaning of `protect` and `populate` is written out flag by flag |
| `PageTable.ProtectsExactly` | core/mmu.cc:171-195 | after `protect` a mapped page of the range is valid, writable exactly when that is asked for and the page is not copy-on-write, executable exactly when that is asked for, and denied exactly when nothing is left; frame, copy-on-write and dirty mark stay; all other pages are as before |
| `PageTable.PopulatesExactly` | core/mmu.cc:501-541 | after `populate` a page of the range that was not mapped has exactly the permissions asked for and the memory its provider gave for it, small or as part of a huge page, or its provider gave no small page for it; all other pages are as before |
| `PageTable.SplitsExactly` | core/mmu.cc:556-566 | after `splithugepages` every mapped page of the range is a small page, except in huge pages with their valid bit off; no translation and no flag changes |
| `PageTable.PostDone` | core/mmu.cc:630-633 | a table that is dropped after its pages were visited held no translation any more |
| `PageTable.MapWhole` | core/mmu.cc:434-448 | an entry wholly inside the range: skip, descend and drop the table afterwards, or handle it here, with the meaning of the operation, exactly the calls and drops that are due, and the table gone from the tree exactly when it was dropped |
| `PageTable.MapTable` | core/mmu.cc:434-448 | a second-level table inside the range: the walk below it, then the drop exactly when it is due |
| `PageTable.DiscardsExactly` | core/mmu.cc:754-767 | asking the visits below a table whether to drop it gives: always for `unpopulate`, and for the clean-up exactly when the table maps no small page |
| `PageTable.TableDropped` | core/mmu.cc:630-633 | the table of a region is dropped once, after the visits below it, and leaves the tree |
| `PageTable.DropsEnd` | core/mmu.cc:424-454 | the drops below the children that meet the range are all drops below the table |
| `PageTable.TableDone` | core/mmu.cc:424-454 | doing the entries that meet the range does the table: pages outside the range keep their translation |
| `PageTable.MapChild` | core/mmu.cc:430-451 | one entry: skip, descend, handle at this level, or clamp and go one level down, each with the meaning of the operation |
| `PageTable.WalkEntries` | core/mmu.cc:424-454 | the loop over the entries does exactly those that meet the range, in order, each with the meaning of the operation |
| `PageTable.WalkTable` | core/mmu.cc:402-454 | with the table opened first, the loop changes exactly the pages of the range, visits each once and drops exactly the tables that are due |
| `PageTable.MapLevel` | core/mmu.cc:402-455 | the walk below one entry: inside the range every page changes as the operation means, outside none does, huge pages cut by the range included |
| `PageTable.VisitedOnce` | core/mmu.cc:358-456 | a page is visited exactly when the operation is due there, and never twice |
| `PageTable.UnpopulatesAt` | core/mmu.cc:607-638 | a page of the range ends unmapped exactly when it is not in a huge page with its valid bit off that the range cuts; other pages keep their translation |
| `PageTable.UnpopulatesExactly` | core/mmu.cc:607-638 | the whole range ends unmapped exactly when it cuts no such huge page |
| `PageTable.PartialUnmapMissed` | core/mmu.cc:403-407 | a huge page populated without any permission survives the unmapping of its first page |
| `PageTable.RangeReachesAll` | core/mmu.cc:804-805 | every byte asked for lies in the pages operated on exactly when the start is aligned or the two remainders fit in one page |
| `PageTable.LastByteMissed` | core/mmu.cc:804-805 | with start 1 and size 4096, byte 4096 is asked for and its page keeps its translation under every operation |
| `PageTable.AddressSpace.OperateRange` | core/mmu.cc:802-818 | the operation on the aligned range, for every operation and every table: each page as the operation means, the visits it makes, and exactly the second-level tables that are due dropped, while all others stay |
| `PageTable.Translated` | core/mmu.cc:825-832 | the walk that looks an address up visits its page exactly when the page is mapped and not in a huge page with its valid bit off, and the entry visited gives the physical address |
| `PageTable.AddressSpace.VirtToPhys` | core/mmu.cc:825-832 | the physical address by the translation, for small and huge pages; no result where the source's assertion fails |
| `TlbGather.AddFree` | core/mmu.cc:590-597 | a free after a flush and other frees is safe if the page's entry was cleared before that flush |
| `TlbGather.BatchOk` | core/mmu.cc:585-600 | a flush followed by the frees of gathered pages keeps every free after a flush of its own clear |
| `TlbGather.BatchFlushes` | core/mmu.cc:585-600 | after such a batch nothing cleared is left unflushed |
| `TlbGather.Finish` | core/mmu.cc:634-636 | at the end all pages given up were freed once, and everything is flushed exactly when tables were dropped only together with leaves |
| `TlbGather.NoFlush` | core/mmu.cc:630-636 | without any leaf there is no flush, so everything is flushed exactly when no table was dropped |
| `TlbGather.Unpopulate.Flush` | core/mmu.cc:585-600 | one flush, then each gathered page freed once, and the gather empty |
| `TlbGather.Unpopulate.Push` | core/mmu.cc:576-584 | flushes exactly when full, then holds the page |
| `TlbGather.Unpopulate.Page` | core/mmu.cc:616-629 | clearing one leaf, given up or kept, preserves what was cleared, freed, gathered and due so far |
| `TlbGather.Unpopulate.OperateRange` | core/mmu.cc:607-638 | for any mix of pages and tables: every page given up is freed exactly once, right after a flush that follows its clear; all clears are flushed exactly when tables are dropped only together with leaves |
| `Unmap.StepsAre` | core/mmu.cc:616-633 | the gather is called for a page exactly when the walk visits one, and for a table exactly when the walk drops one |
| `Unmap.VisitIsBlock` | core/mmu.cc:616-629 | each visit is one whole entry: a block of pages that were mapped to consecutive memory, all in the range |
| `Unmap.FreesExactly` | core/mmu.cc:616-629 | what is freed is memory that was mapped in the range and given up by its provider, with its address and size; every page that the walk clears is in a block that is freed as a whole if its provider gives it up |
| `Unmap.CallsWhenMapped` | core/mmu.cc:607-629 | the walk calls `page` exactly when the range maps a page, other than in a huge page with its valid bit off that the range cuts |
| `Unmap.DroppedWhenHeld` | core/mmu.cc:630-633 | the walk drops a table exactly when the range holds a second-level table as a whole |
| `Unmap.UnmapRange` | core/mmu.cc:802-818 | walk and gather together: each freed page was flushed after its clear; exactly the memory that was mapped in the range and given up is freed; everything is flushed at the end exactly when the page table before the call holds no second-level table wholly in the range or maps a page there that the walk clears |
| `Unmap.TableDroppedUnflushed` | core/mmu.cc:630-636 | a page table with a second-level table and no page: unmapping its 2 MB drops the table and flushes nothing |
| `VmaList.SplitKeeps` | core/mmu.cc:1461-1469 | splitting keeps the list in order, and every address shows the same permissions, flags and byte of the same file |
| `VmaList.AreaShows` | core/mmu.cc:1773-1776 | every address of an area shows its permissions and flags; in a file area that starts at offset `off` the address a shows byte off + (a - start) of the file |
| `VmaList.SplitInserts` | core/mmu.cc:1711-1720 | shrinking the area and inserting the rest puts the two parts next to each other |
| `VmaList.EraseKeeps` | core/mmu.cc:967-987 | erasing an area unmaps exactly its addresses |
| `VmaList.InsertKeeps` | core/mmu.cc:1108-1125 | a new area in free space maps exactly its addresses |
| `VmaList.FreeIsUnmapped` | core/mmu.cc:937-965 | space free of areas is space where no address is mapped, and the other way round between the markers |
| `VmaList.FindsExactly` | core/mmu.cc:860-873 | between the markers the search finds the area of an address exactly when it is mapped |
| `VmaList.FirstFromMeets` | core/mmu.cc:886-894 | the slice begins at the first area that ends after the start of the range or begins in it |
| `VmaList.FindVmasMeet` | core/mmu.cc:880-904 | the slice found holds every area that meets the range and none that does not |
| `VmaList.MarkersSpared` | core/mmu.cc:63-71 | the slice leaves the markers out exactly when the range starts above 0 and ends at or below the top |
| `VmaList.FirstMarkerErased` | core/mmu.cc:967-987 | for a range that starts at 0 the pass begins at the first marker and its first round erases it, after which the list has no marker at 0 |
| `VmaList.LastMarkerErased` | core/mmu.cc:967-987 | for a range that ends above the top the round for the last marker erases it |
| `VmaList.FirstPageErasesMarker` | core/mmu.cc:967-987 | with nothing mapped, evacuating the first page leaves the last marker alone in the list |
| `VmaList.EvacuateCut` | core/mmu.cc:967-987 | cutting an area at both edges leaves a part that is inside or outside the range, with nothing else changed |
| `VmaList.EvacuateOnce` | core/mmu.cc:967-987 | one round clears the next area from the range, changes nothing outside it, and moves on |
| `VmaList.EvacuateEnd` | core/mmu.cc:967-987 | when the pass ends the range is free and all other addresses are as before |
| `VmaList.ProtectStep` | core/mmu.cc:915-935 | one round gives the new permission to the part of the area inside the range, and to nothing else |
| `VmaList.GapIsFree` | core/mmu.cc:937-965 | a place between two neighbouring areas is free |
| `VmaList.ChosenSmall` | core/mmu.cc:944-958 | for less than 2 MB the first gap with room gives the lowest place that fits |
| `VmaList.ChosenHuge` | core/mmu.cc:944-958 | from 2 MB on the first gap with room on a huge page gives the lowest such place |
| `VmaList.ChosenLast` | core/mmu.cc:959-965 | at the end of the list the last gap with room is the highest hole there is, and without one nothing fits |
| `VmaList.FreePages` | core/mmu.cc:1360-1363 | free space stays free when it is widened to whole pages |
| `VmaList.AddressSpace.constructor` | core/mmu.cc:63-71 | exactly the two markers, so nothing is mapped |
| `VmaList.AddressSpace.SplitArea` | core/mmu.cc:1711-1720 | the list with one area cut, or unchanged when the edge is not inside it; the upper part has the same file, permissions and flags, and the offset of the lower part plus edge - start |
| `VmaList.AddressSpace.Evacuate` | core/mmu.cc:967-987 | unmaps exactly the range, cutting areas at its edges |
| `VmaList.AddressSpace.EvacuateOne` | core/mmu.cc:967-987 | one round in place, for any area and any range, markers included: both cuts, then the erase of what is inside |
| `VmaList.AddressSpace.Protect` | core/mmu.cc:915-935 | on success exactly the mapped addresses of the range have the new permission; on an error exactly those below the area that refused it |
| `VmaList.AddressSpace.FindHole` | core/mmu.cc:937-965 | `start` if it fits there; else the lowest place, from 2 MB on the lowest on a huge page, or without one the start of the highest hole; none exactly when nothing fits; when the sum wraps at 64 bits, exactly what the code then returns |
| `VmaList.WrapFindsNoFit` | core/mmu.cc:937-965 | with nothing mapped and a size that wraps around 2^64 from the default start, the search returns that start, although no list has room for the size |
| `VmaList.AddressSpace.Allocate` | core/mmu.cc:1108-1125 | maps the area at the place that `find_hole` is to choose, or at its address over whatever was there, and changes nothing else; fails exactly when nothing fits |
| `VmaList.AddressSpace.IsMapped` | core/mmu.cc:1264-1278 | true exactly when the range is not empty and mapped throughout |
| `Rcu.StepKeepsLocal` | core/rcu.cc:117-188 | a step of the cleaning thread loses, doubles or reorders no callback of its CPU |
| `Rcu.StepKeepsInv` | core/rcu.cc:117-188 | it keeps the protocol: generations drawn, asked for, reached and seen, and which readers each batch still waits for |
| `Rcu.OwnBatchLoad` | core/rcu.cc:150-170 | a thread that gets to its callbacks has seen every CPU at its generation, so no reader of the batch is left |
| `Rcu.DeferKeepsInv` | core/rcu.cc:194-217 | deferring a callback keeps the protocol, with all readers running then recorded |
| `Rcu.SectionKeepsInv` | include/osv/rcu.hh:167-180 | entering or leaving a read-side section keeps the protocol |
| `Rcu.NextKeepsInv` | core/rcu.cc:117-217 | every move keeps the protocol |
| `Rcu.RunKeepsInv` | core/rcu.cc:117-217 | so it holds in every state of every run |
| `Rcu.GracePeriod` | core/rcu.cc:164-174 | no callback that has run was deferred while a section was running that runs still |
| `Rcu.ReaderHasLeft` | core/rcu.cc:219-229 | the promise of `rcu_synchronize`, on the moves of a run: a section entered before a callback was deferred has been left by the time the callback has run |
| `Rcu.RunsInOrder` | core/rcu.cc:166-174 | on each CPU the callbacks run so far followed by those pending are those deferred, in order: each runs at most once, none overtakes |
| `Rcu.DefersExactly` | core/rcu.cc:194-217 | what is deferred on a CPU is what the calls of `rcu_defer` there were given, in order |
| `Rcu.RunsWhatWasDeferred` | core/rcu.cc:166-174 | the callbacks run on a CPU are the first ones of those given to `rcu_defer` there |
| `Rcu.CleansWhenAllReached` | core/rcu.cc:150-165 | a thread runs its callbacks only when every CPU has reached the generation drawn for them |
| `Rcu.WaitedForIsAsked` | core/rcu.cc:144-156 | a CPU that a thread waits for has a request above its generation, so its own wait condition holds |
| `Rcu.WaitersAreServed` | core/rcu.cc:175-186 | an idle thread that another waits for publishes the generation asked for in three steps of its own |
| `Rcu.WaitersServeEachOther` | core/rcu.cc:150-163 | so does a thread that waits itself, so two that wait for each other both go on |
| `Rcu.CallbacksAreTaken` | core/rcu.cc:119-136 | an idle thread with callbacks and nothing asked of it takes all of them over in three steps |
| `Rcu.RunGrows` | core/rcu.cc:73-97 | generations never go back |
| `Rcu.FlushIsBarrier` | core/rcu.cc:237-251 | once the callback of a flush has run on a CPU, everything deferred there before has run |
| `Sched.InsertSorted` | core/sched.cc:466-470 | the run queue stays ordered by runtime |
| `Sched.InsertPlace` | core/sched.cc:466-470 | a thread goes behind all queued ones of the same or a lower runtime and before all others |
| `Sched.LastFree` | core/sched.cc:691-716 | the thread that load balancing takes is the last one in the queue that is not pinned, if there is any |
| `Sched.WakeKeepsInv` | core/sched.cc:1130-1138 | a wake-up that wins its compare-and-swap keeps the placement of all threads |
| `Sched.PushKeepsInv` | core/sched.cc:1139-1148 | so does the push to an incoming queue, announced by a bit that is set or about to be |
| `Sched.PopKeepsThreads` | core/sched.cc:429-462 | draining moves a thread from its incoming queue to its run queue, or back to running when it is current |
| `Sched.BalanceKeepsInv` | core/sched.cc:691-716 | migrating a queued thread keeps every thread in one place |
| `Sched.FindsAThread` | core/sched.cc:232-350 | a CPU whose current thread cannot go on has a queued thread |
| `Sched.RescheduleIsSwitch` | core/sched.cc:232-350 | a reschedule keeps the running thread or switches to the first of the run queue, and fails none of its assertions |
| `Sched.NextKeepsInv` | core/sched.cc:232-1238 | every move keeps the placement of all threads |
| `Sched.RunKeepsInv` | core/sched.cc:232-1238 | so it holds in every state of every run |
| `Sched.NeverCrashes` | core/sched.cc:1080-1238 | no assertion fails and no CPU takes a thread from an empty queue |
| `Sched.QueuedIsInOneRunQueue` | core/sched.cc:429-470 | a queued thread is once in the run queue of its own CPU, in no other queue, and current nowhere |
| `Sched.WakingIsInOneQueue` | core/sched.cc:1130-1158 | a waking thread is held by one waker, or once in one incoming queue which is announced to its CPU |
| `Sched.CurrentOnOneCpu` | core/sched.cc:232-350 | no thread is current on two CPUs; a running thread is current on its own |
| `Sched.SwitchesToLowest` | core/sched.cc:232-350 | a reschedule that leaves the thread picks a queued one of lowest runtime; it stays exactly when the thread runs and is below all queued ones |
| `Sched.YieldsExactly` | core/sched.cc:744-763 | `yield` goes on to a reschedule exactly when a thread is queued and the first one is not the idle thread |
| `Sched.YieldSwitches` | core/sched.cc:298-350 | that reschedule leaves the thread, whatever its runtime, for a queued one of lowest runtime, and queues it |
| `Sched.StatusExactly` | core/sched.cc:232-1238 | over every run the status of each thread changes exactly as its own calls, wake-ups and reschedules say; its CPU only by a start or a migration while queued; its pin only by itself |
| `Sched.WakesExactly` | core/sched.cc:1130-1138 | a wake-up of a waiting thread makes it waking and leaves it with the waker to push; a plain one leaves a thread that is being sent a lock alone; one that does not apply changes nothing |
| `Cputime.Unpack` | core/sched.cc:178-193 | both halves of the packed word are the middle 32 bits of the saved times |
| `Cputime.RecoversExactly` | core/sched.cc:194-219 | a saved time comes back exactly when the reference is less than 2^42 ns past it, around the 64-bit word |
| `Cputime.RoundTrip` | core/sched.cc:178-220 | saving and reading gives both times with 10 low bits cleared, exactly for references within that range |
| `TimerTask.CancelFiringKeepsInv` | core/async.cc:330-349 | a cancel that loses the race with the worker still revokes the callback and keeps the invariant |
| `TimerTask.StartKeepsInv` | core/async.cc:351-362 | starting a callback keeps the invariant |
| `TimerTask.MisfireKeepsInv` | core/async.cc:351-356 | so does a fire that finds its registration replaced |
| `TimerTask.NextKeepsInv` | core/async.cc:104-367 | every move of callers, destructors and workers keeps the invariant |
| `TimerTask.NextKeepsTimers` | core/async.cc:104-117 | every move keeps the note in a task saying exactly whether it is in the timer set of its worker |
| `TimerTask.RunKeepsInv` | core/async.cc:104-367 | so both hold in every state of every run |
| `TimerTask.NeverCrashes` | core/async.cc:202-229 | no assertion about a task's state fails, nor those of `insert` and `mark_removed` about its note, which is a field beside the timer set |
| `TimerTask.StartsAtMostOnce` | core/async.cc:351-367 | a callback starts for a registration that was neither started nor cancelled before |
| `TimerTask.CancelledNeverStarts` | core/async.cc:330-349 | a registration for which cancel returned true never starts its callback |
| `TimerTask.PendingIsArmed` | core/async.cc:104-117 | a pending registration, outside the calls of its task, is in the timer set of its worker or that worker is on its way to start it |
| `TimerTask.ExpiryStarts` | core/async.cc:351-362 | a worker that takes the pending registration of an idle task starts its callback |
| `TimerTask.TaskIsInOnePlace` | core/async.cc:120-138 | a per-CPU task is in one master's registrations, once in its worker's released queue, or in the hands of one call or worker |
| `TimerTask.DestroyedIsUntouched` | core/async.cc:267-288 | when the destructor has returned no worker holds or can still take a task of the object |
| `TimerTask.DrainingIsFiring` | core/async.cc:285-287 | everything the destructor still waits for is being fired by its worker |
| `TimerTask.ScheduledIsCounted` | core/async.cc:388-449 | `_n_scheduled` is pending plus fires before their `try_fire`, which succeeds at most once per reschedule |
| `TimerTask.FiresExactly` | core/async.cc:429-449 | from the moves of a run: `try_fire` returns true exactly when nothing is pending and the last `reschedule` came after the last `cancel` and the last `try_fire` that did |
| `TimerTask.CancelSyncHolds` | core/async.cc:410-421 | after the count was zero, the assertion of `cancel_sync` holds exactly when nothing is pending or in flight, and surely when nobody rescheduled since |
| `TimerTask.WokenExactly` | core/async.cc:435-449 | the waiters of `_all_done` are woken exactly by a `try_fire` that takes the count from one to zero |
| `TimerTask.SleepsOn` | core/async.cc:400-421 | from a state with the count at zero nobody who waits is woken until somebody reschedules or destroys the task |
| `TimerTask.CancelSyncMayFail` | core/async.cc:410-421 | moves by which a waiting `cancel_sync` is woken at count zero, a reschedule slips in, and the count is one when it has the mutex |
| `TimerTask.CancelSyncMaySleep` | core/async.cc:400-421 | moves by which a waiting `cancel_sync` is left with the count at zero, nothing pending, and no wake-up since it began to wait |
| `Condvar.RegroupedOnce` | core/condvar.cc:138-161 | the order in which locks are sent holds every record exactly once |
| `Condvar.RegroupedFifoPerCpu` | core/condvar.cc:138-161 | threads of one CPU get the lock in the order in which they came |
| `Condvar.RegroupedTogether` | core/condvar.cc:138-161 | threads of one CPU are sent the lock one after another, with none of another CPU between |
| `Condvar.RegroupedByFirst` | core/condvar.cc:138-161 | the CPUs come in the order of their first waiter |
| `Condvar.StillAlive` | core/condvar.cc:146-158 | neither a record about to be visited nor one kept in the list was sent the lock before |
| `Condvar.VisitRecord` | core/condvar.cc:146-158 | one record is sent and unlinked, or kept; the rest of the list stays linked; what the mutex wrote to the record stays, and records outside the list keep their links |
| `Condvar.SendSameCpu` | core/condvar.cc:145-159 | exactly the records of the CPU are sent the lock, in order, and exactly the others stay linked; no record is written after it was sent, and none outside the list at all |
| `Condvar.SendRound` | core/condvar.cc:138-160 | one round of the outer loop: the first record and all others of its CPU, with the same frame |
| `Condvar.SendAll` | core/condvar.cc:138-161 | the whole list is sent the lock, grouped by CPU; each record ends with what the mutex wrote to it when it was sent, and all others with their old links |
| `Condvar.LedgerTimeOut` | core/condvar.cc:44-69 | a record that leaves by its timeout is not also woken |
| `Condvar.LedgerWake` | core/condvar.cc:101-118 | a record that is woken does not also time out |
| `Condvar.LedgerWakeAll` | core/condvar.cc:121-162 | taking the whole queue accounts for every record in it |
| `Condvar.CameTells` | core/condvar.cc:31-34 | after a wait the history tells that somebody came, and the mutex remembered is its own |
| `Condvar.ExpiredTells` | core/condvar.cc:44-69 | a timeout forgets nothing, also when it empties the queue |
| `Condvar.WokeTells` | core/condvar.cc:112-116 | a `wake_one` forgets the mutex exactly when it wakes the only record |
| `Condvar.WokeAllTells` | core/condvar.cc:129-136 | a `wake_all` past its check forgets the mutex |
| `Condvar.LeftBehindExactly` | core/condvar.cc:31-34 | the asserted condition fails exactly when the last thread that came had another mutex and somebody waits still or a timeout emptied the queue |
| `Condvar.WaitQueue.constructor` | core/condvar.cc:18-30 | an empty queue with no history |
| `Condvar.WaitQueue.Wait` | core/condvar.cc:18-40 | the record is behind all others, with exactly these links written; the assertion fails exactly when the history of the queue left another mutex behind |
| `Condvar.WaitQueue.Predecessor` | core/condvar.cc:54-64 | the search finds the record before the one sought, or that it is not queued |
| `Condvar.WaitQueue.TimeOut` | core/condvar.cc:44-69 | removes exactly this record if it is still queued, and says whether it was; writes one link at most and leaves the mutex remembered |
| `Condvar.WaitQueue.WakeOne` | core/condvar.cc:91-119 | the record that has waited longest leaves the queue and is the one woken; no other record is written; the mutex is forgotten when this empties the queue; nothing happens when the check outside the mutex saw nobody |
| `Condvar.WaitQueue.WakeAll` | core/condvar.cc:121-162 | every record in the queue is sent the lock once, in the grouped order, and no other is written; the mutex is forgotten, also when a timeout has emptied the queue since the check outside the mutex |
| `Condvar.TimeoutLeavesMutex` | core/condvar.cc:44-69 | a thread waits with one mutex and times out; the next, waiting alone with another mutex, fails the assertion |
| `Condvar.WakeForgetsMutex` | core/condvar.cc:112-116 | when the first was woken instead, the second passes |
| `CondvarRace.WaitKeepsInv` | core/condvar.cc:18-40 | a new waiter joins the queue while loops of `wake_all` run: they and all records stay in order |
| `CondvarRace.TimeOutKeepsInv` | core/condvar.cc:44-69 | so with a timeout, whether or not a `wake_all` has taken the record |
| `CondvarRace.WakeOneKeepsInv` | core/condvar.cc:91-119 | so with a `wake_one` |
| `CondvarRace.TakeKeepsInv` | core/condvar.cc:121-137 | so when another `wake_all` takes the queue and gives the mutex up |
| `CondvarRace.RelinkKeepsInv` | core/condvar.cc:139-158 | so when the user mutex or a later wait writes to a record that was sent, at any time and with any value |
| `CondvarRace.StepVisits` | core/condvar.cc:138-161 | each visit of a loop changes only links of records that this loop holds, and keeps what it has sent plus what it will send the grouped order |
| `CondvarRace.StepKeepsInv` | core/condvar.cc:138-161 | so a visit keeps the order of the queue and of all other loops |
| `CondvarRace.NextKeepsInv` | core/condvar.cc:18-162 | every move keeps it |
| `CondvarRace.RunKeepsInv` | core/condvar.cc:18-162 | so it holds in every state of every run, with any number of loops at once |
| `CondvarRace.EachSentOnce` | core/condvar.cc:138-161 | a `wake_all` that has ended has sent exactly the records it took, each once, in the grouped order |
| `CondvarRace.TouchesOwnOnly` | core/condvar.cc:138-161 | a visit reads and writes only records that this loop took and has not sent |
| `CondvarRace.LoopGoesOn` | core/condvar.cc:138-161 | a loop that has not ended can make its next visit: no null pointer is followed |
| `CondvarRace.LoopEnds` | core/condvar.cc:138-161 | each visit leaves strictly less to do, so every loop ends |
| `CondvarRace.LeavesOnce` | core/condvar.cc:44-162 | over any run a record only moves on: a timed-out record is never sent the lock, a taken one never times out, and a sent one stays sent |
| `RwLock.WriterRunsKeeps` | core/rwlock.cc:156-165 | a woken writer that finds the lock taken queues again without a wake-up being lost |
| `RwLock.RUnlockKeeps` | core/rwlock.cc:45-57 | the last reader hands over to a waiting writer |
| `RwLock.ReadingKeeps` | core/rwlock.cc:26-43 | `rlock`, `try_rlock` and a woken reader count exactly the holds they give |
| `RwLock.WritingKeeps` | core/rwlock.cc:74-101 | so do `wlock`, `try_wlock` and a woken writer, with recursion |
| `RwLock.WUnlockKeeps` | core/rwlock.cc:103-120 | one write hold less; the waiters are woken also after a recursive release. Whom it wakes is `ReleaseWakesReaders` |
| `RwLock.DowngradeKeeps` | core/rwlock.cc:122-138 | all write holds of the thread are gone before it reads again |
| `RwLock.TryUpgradeKeeps` | core/rwlock.cc:59-72 | an upgrade turns the only read hold into a write hold, or changes nothing |
| `RwLock.ReleaseAllKeeps` | core/rwlock.cc:122-138 | a downgrade gives up all holds, whatever their number |
| `RwLock.NextKeepsInv` | core/rwlock.cc:26-176 | every operation keeps the invariant |
| `RwLock.RunKeepsInv` | core/rwlock.cc:26-176 | so it holds in every state of every run |
| `RwLock.Exclusion` | core/rwlock.cc:26-176 | by the calls that returned so far, nobody reads while somebody writes, no two threads write, and no assertion fails |
| `RwLock.NoLostWakeup` | core/rwlock.cc:103-120 | while anybody waits for an idle lock a woken writer has yet to go on; that nobody drops out of the queues is `CallersAreKept` |
| `RwLock.CallersAreKept` | core/rwlock.cc:156-176 | from the moves of a run: the threads queued together with those woken are exactly, as multisets, those whose `rlock` or `wlock` was called and has not returned |
| `RwLock.ReleaseWakesReaders` | core/rwlock.cc:103-120 | `wunlock` with no writer waiting lets every waiting reader go on, and after the last write hold each of them then reads |
| `RwLock.WaitInOrder` | core/rwlock.cc:156-176 | every move leaves each queue at its front or joins it at its end |
| `RwLock.GrantedExactly` | core/rwlock.cc:145-154 | by the calls that returned: a reader gets the lock exactly when nobody writes and no writer waits, a writer exactly when nobody else holds it, an upgrade exactly when the only read hold is there and no writer waits; all others join the end of a queue |
| `RwLock.IdleLockIsTaken` | core/rwlock.cc:74-85 | that writer gets the lock when it goes on first |
| `RwLock.HoldsAreCounted` | core/rwlock.cc:26-138 | over every run the reader count is the number of read holds given and not returned, the owner is exactly the thread with write holds, and the recursion counter is their number less one |
| `TraceRing.PlaceFits` | core/trace.cc:98-107 | a record never crosses a trace page |
| `TraceRing.PageBegins` | core/trace.cc:98-107 | every page entered begins with a record |
| `TraceRing.InOnePiece` | core/trace.cc:108-125 | a record is contiguous in the buffer although positions wrap |
| `TraceRing.LogKeeps` | core/trace.cc:98-120 | writing a record keeps all records of the pages that were not entered again, and the padding marks |
| `TraceRing.Finds` | core/trace.cc:926-934 | where the reader stands it finds the head of the next record or padding |
| `TraceRing.ReaderAt` | core/trace.cc:926-992 | one step of the reader stays in its region and passes exactly one record or the padding |
| `TraceRing.TraceBuf.constructor` | core/trace.cc:69-80 | an empty ring |
| `TraceRing.TraceBuf.Trace` | core/trace.cc:98-120 | one record more in the log, at its place |
| `TraceRing.TraceBuf.ReadRegion` | core/trace.cc:922-993 | a region gives exactly the records that lie in it, in order, or nothing when it was never used |
| `TraceRing.TraceBuf.Dump` | core/trace.cc:911-993 | exactly the records from the oldest page still whole to the newest, in order, after any number of wraps |
| `ElfHash.StepIsGabi` | core/elf.cc:707-713 | one character in 64-bit arithmetic gives what the 32-bit arithmetic of the gABI gives |
| `ElfHash.XorBit` | core/elf.cc:709-711 | the exclusive or of two numbers has a bit exactly when one of the two has it |
| `ElfHash.MixBits` | core/elf.cc:709-711 | bits 28 to 31 are folded into bits 4 to 7 and nothing else changes |
| `ElfHash.HashIsGabi` | core/elf.cc:703-715 | the hash is below 2^28 and is that of "Hash Table" in chapter 5 of the System V gABI |
| `ElfHash.Elf64Hash` | core/elf.cc:703-715 | the loop computes that hash |
| `ElfHash.NewHashIs32` | core/elf.cc:736-744 | the hash in 64-bit words with a final mask is the hash in 32-bit words |
| `ElfHash.DlNewHash` | core/elf.cc:736-744 | the loop computes that hash |
| `ElfHash.WalkChain` | core/elf.cc:725-733 | the walk ends and finds the name exactly when the chain holds it |
| `ElfHash.LookupOld` | core/elf.cc:717-734 | finds a symbol of the name exactly when a linear scan does |
| `ElfHash.BloomNeverMisses` | core/elf.cc:758-763 | the filter test, weaker than a test of single bits, rejects no name that is present |
| `ElfHash.WalkRun` | core/elf.cc:770-778 | the walk ends at the marked last symbol and finds the name exactly when the run holds it |
| `ElfHash.LookupGnu` | core/elf.cc:746-779 | finds a hashed symbol of the name exactly when a linear scan does |

## Left out

- Weak memory orderings: every atomic access is sequentially consistent.
- `queue_mpsc`, `wait_record` and the intrusive containers: their internals are abstract sequences, sets and multisets.
- `send_lock_unless_already_waiting` and the revert path of `wake_lock`: the refusing path leaves `count` raised, so the count would not be a sum of requests; in the scheduler model a refused `wake_lock` changes nothing.
- `initial_add` and the growth of the bitmap: the number of pages is fixed, and the first and last page stay allocated as guards.
- `malloc_large` and `free_large`, page pools, small-object pools, reclaimer and balloon: thin wrappers or tuning around the allocator.
- PageRanges.PageRangeAllocator.Insert: bitmap, headers, footers and lists are sequence-valued fields, so sharing between the list nodes and the pages they live in is not captured.
- PageRanges.PageRangeAllocator.AllocAligned: offset and alignment are whole pages; offsets inside a page are not covered, and `ShiftInBytes` ties the rest to the source's byte arithmetic.
- Vring.Virtqueue.GetBufFinalize: the buffer was fetched before, as the header says and all drivers do; passing an unfetched buffer would lose its cookie.
- Vring.Virtqueue.AddBuf: the list is not empty; the source would write before the table for an empty one. The device is assumed to complete each buffer it takes once.
- `enable_interrupts`, the used event and `add_buf_wait`: device registers and blocking.
- PageTable.AddressSpace.OperateRange: the tree is a value, so races on entries and sharing of tables are not captured; the range lies in one half of the 48-bit space; populating requires that the walk enters no huge page with its valid bit off, where the source asserts.
- `linear_page_mapper`, file page providers, copy-on-write faults, slop other than one page and page sizes above 2 MB: not needed for the properties of the walk.
- VmaList.AddressSpace.Evacuate: ranges are page-aligned and lie between the markers, as `MarkersSpared` shows they must; `EvacuateOne` has no such limit.
- VmaList.AddressSpace.Protect: ranges are page-aligned, which `mprotect` checks, and lie between the markers.
- VmaList.AddressSpace.Allocate: a searched mapping starts at page 1 or above, because page 0 collides with the first marker, and its end does not wrap, which `WrapFindsNoFit` is about.
- `depopulate`, `nohugepage`, memory accounting and page faults: they step through the same functions.
- Rcu.RunsInOrder: CPU hotplug, the wake-ups themselves and the blocking of a full buffer are not modelled; `request` raises its word in one step. That a callback is run eventually is not stated.
- `thread::pin` across CPUs, `unsafe_stop`, timers, inter-processor interrupts and floating-point runtimes of the scheduler: the runtime is an abstract key that moves choose.
- TimerTask.NextKeepsInv: expiry times and one-shot tasks are not modelled; any queued task may expire.
- TimerTask.SleepsOn: the thread inside `cancel_sync` has no state of its own; what is counted is whether anybody who waits was woken.
- Condvar.WaitQueue.Wait: the user mutex is a number; sending the lock is recorded, and what the mutex writes to a record it was given is arbitrary.
- CondvarRace.StepVisits: one visit of the loop, with its reads and writes of one record and its neighbour, is one step.
- RwLock.RunKeepsInv: the wait queues are abstract and first in, first out; the `rlock` at the end of `downgrade` is a move of its own.
- TraceRing.TraceBuf.Dump: records carry their length; the field-by-field decoding by signature, backtraces and records cut short by a crash are not modelled.
- ElfHash.LookupGnu: tables and names are sequences; visibility filters, relocation and loading are not modelled.
- `core/pagecache.cc`, the network, file system and device code, loaders and the command line: outside this core.
