# A verified model of PHP's memory manager, test scheduler and runtime tables

This project models six components of the PHP 8.2.28 source tree in Dafny and
proves what they promise over all inputs, all runs and all reachable states.

**The Zend memory manager** (`zend_alloc.c`) is the main part, in layers:

- `Bitset` and `PageSearch`: the bitset of used pages, word by word, and the
  best-fit search over it, proved against the sequence of pages the words stand for.
- `PageInfo`, `Bins`: the packed page map entries and the size classes.
- `Chunks`, `Blocks`, `Ledger`: one chunk with its run structure, the blocks the
  page map describes, and the ledger of live and free blocks of a whole heap.
- `Memory`: what the allocator itself keeps in memory, byte by byte: the links of the
  free lists and the elements of the list of huge blocks.
- `Collector`, `Space`, `Heap`: the collector, the chunk ring, cache and mappings,
  and the page allocator.
- `Allocator`, `Realloc`, `Lifecycle`, `Manager`: small, large and huge blocks,
  reallocation with the bytes it keeps, start, limit and end of a request, and the
  heap object `MMHeap` whose invariant every operation keeps.

The heap invariant (`Heap.Valid`) says that every page belongs to at most one run,
that page map, bitset, `free_pages` and `free_tail` agree with the runs, that each
slot of a small run is either live or on its bin's free list exactly once, that every
large run and listed huge block is live with its true size, that chunks and huge
blocks share no segment, that the counters and `real_size` agree with the lists, and
that following the links in memory gives exactly the free lists and the list of huge
blocks. Between operations no chunk but the main one is empty (`Heap.Compact`).

An allocation fails only when nothing is left to collect, and each operation states
when it is certain to succeed: when a slot, pages or a cached chunk are there, or what it
needs fits under the limit and the system refuses no mapping (`Allocator.Served`).

**The parallel test scheduler** (`run-tests.php`) is `Scheduler`: a run is a trace of
dispatches, completions and retirements, for every order in which workers may answer.

**Module ordering and startup** (`zend_API.c`) is `Modules`, **the thread-safe
resource manager** (`TSRM.c`) is `Tsrm`, **arena allocation** (`zend_arena.h`) is
`Arenas`, with `ArenaMemory` for arenas on the heap, and **the recursive value
printers** (`zend.c`) are `Printer`. `Basics` holds the range of `size_t`, minimum
and maximum, and the reversal of a sequence.

## Where the code does not do what one might expect

- The collector does not exempt the main chunk. It deletes it exactly when no block of
  that chunk is live and no bin 0 run is in it (`Heap.Gc`); a new heap is such a case
  (`Manager.NewHeapUnpinned`). The model calls this outcome `MainLost`.
- The 9-bit run counter cannot hold the 512 of a full bin 0 run, so the collector never
  frees one (`PageInfo.SrunRoundTrip`, `Collector.DoomedIsCollectable`).
- `free_tail` is used as a page index although its comment calls it a count, and growing a
  large block in place does not move it. What holds is that no run starts at or above it
  (`Manager.ChunkFacts`), and that is enough for the search and the sweep.
- `size` is counted before a small run is there. When the allocation then fails, `size`
  stays too high by exactly that block, or by the list element of a huge block whose
  mapping is lost (`Allocator.AllocHeap`, `LostCount`); otherwise it is exact.
- `zend_mm_realloc_huge` does not check that rounding up to pages wraps around, as
  `zend_mm_alloc_huge` does: for the last 4095 sizes it truncates the block to 0 bytes
  (`Realloc.Wraps`, `Realloc.ReallocBlock`).
- `zend_mm_realloc_slow` copies as many bytes as it is told. A large block made small, or a
  huge one made small or large, with a copy size beyond the new block writes past it
  (`Realloc.Overruns`, `Realloc.OverrunHits`); in `Manager.OverrunRun` that destroys a free
  list. On every other path any copy size is safe.
- The memory limit is kept by every operation except the allocation of a huge block, new or
  to move a block to, which is checked before its list element is allocated. From within the
  limit it is exceeded exactly when the element needs a chunk of its own and there is no
  room for block and chunk together (`Allocator.NodeExceeds`, `Allocator.AllocHuge`), and
  then by at most that chunk. The one condition is that the system refuses no mapping: a
  refusal starts a collection, which may give back what the chunk takes; in a heap without
  free slots it gives back nothing, and the allocation fails. A move to a huge block leaves
  the limit exceeded unless releasing the old block brings it back (`Realloc.MoveExact`).
  `Manager.ExceedLimit` is a run past the limit; after it `limit - real_size` wraps around
  and the checks let nearly everything through (`Heap.LimitGone`).
- After a collection `zend_mm_alloc_pages` does not search the chunks again but goes on to
  ask for a whole chunk, and fails if it cannot have one (`Heap.GetChunk`).
- `zend_set_memory_limit` returns success without storing the limit when it had to give
  back cached chunks (`Lifecycle.SetMemoryLimit`).
- A batch holds one test more than the batch size whenever more tests than that are free to
  run (`Scheduler.TakeBatch`, `Scheduler.OneMore`).
- The module sort runs for ever exactly when dependencies form a cycle through two or more
  modules that are not started (`Modules.HaltsIffAcyclic`, `Modules.MutualDependency`).
- A failed fast allocation has used up an id (`Tsrm.AllocateFastId`, `Tsrm.FailedIdLags`).
- Asking for the resources of another thread that has no entry makes that entry and points
  the caller's own thread pointer at it (`Tsrm.FetchSlow`). That is the only way in which a
  thread pointer comes to name another thread's entry; when that thread ends, the pointer
  leads nowhere (`Tsrm.ForeignRequest`).
- `tsrm_startup` accepts 0 expected threads, and then there is no bucket to hash a thread to
  (`Tsrm.Startup`).
- Rounding a size up to 16 wraps around for the last 15 sizes: a fast resource of such a
  size gets a place of 0 bytes (`Tsrm.AllocateFastId`, `Tsrm.FastSizeWraps`).
- Arena sizes above 2^64 - 32 wrap around: the caller gets no bytes, or an arena whose
  pointer lies in its own header (`Arenas.ArenaStack.Alloc`, `Arenas.LargeSizesWrap`). An
  arena created smaller than its header is not sound (`Arenas.ArenaStack.Create`).
- `zend_arena_contains` claims a foreign block exactly when it begins where a full arena
  ends (`Arenas.ContainsStranger`, `Arenas.AdjacentClaimed`).

## How things are represented

- Addresses are a segment number and an offset; a segment is 2 MB, and there are as many as
  fit in 64 bits but for the last, so that the end of a block is an address. Memory is a
  function from addresses to bytes. Free lists and the list of huge blocks are also held as
  sequences, and the operations walk these; in every state of the heap they are what the
  links in memory spell out. The heap structure and the chunk headers are records, a chunk
  header being found by its segment number; bitset operations and the page search work on
  arrays of 64-bit words. A `View` is specification state: the runs, the live blocks, and
  mappings not yet listed.
- The operating system gives a fresh chunk-aligned mapping or fails, extends a mapping into
  unmapped space or fails; any choice is allowed. Pages of the system are 4096 bytes,
  `size_t` has 64 bits, `ZEND_DEBUG` is 0, and there is no custom heap or storage. Averages
  of chunk counts are real numbers.
- The error paths that end the request (`zend_mm_safe_error`) are the outcome `Bailout`.
- Tests are names with a function giving their conflict keys; a test name is never empty or
  "0", which PHP's loop conditions would take for the end of a list. Workers answer every
  batch once. Keys are released in any order.
- A thread pointer whose entry has been torn down is a read that the model answers with
  `Dangling`; a copy that overruns its block ends the run of the model, with the bytes it has
  written.
- Thread ids are numbers, a mutex-protected operation is one step, and memory for resources
  never runs out. A missing constructor or destructor counts as one that does nothing.
- A module's own startup function succeeds or not as a parameter says; failure ends the
  process.
- Values to print are a finite graph; keys, class names and scalars are given as the text
  they print as. References and immutable arrays, which carry no recursion flag, do not
  form cycles by themselves.

## Model

| member | source | states |
|---|---|---|
| `Bitset.Nts` | `php-8.2.28/Zend/zend_alloc.c:549-584` | the portable trailing-ones count is exact for every word that has a clear bit, and `w & (w + 1)` clears exactly those ones |
| `Bitset.Ntz` | `php-8.2.28/Zend/zend_bitset.h:41-75` | the trailing-zeros count is exact for every non-zero word, and filling with `w - 1` sets exactly those zeros |
| `Bitset.IsSet` | `php-8.2.28/Zend/zend_alloc.c:587-590` | the bit test agrees with the sequence of pages the words stand for |
| `Bitset.SetBit` | `php-8.2.28/Zend/zend_alloc.c:592-595` | exactly one page becomes used |
| `Bitset.ResetBit` | `php-8.2.28/Zend/zend_alloc.c:597-600` | exactly one page becomes free |
| `Bitset.SetRange` | `php-8.2.28/Zend/zend_alloc.c:602-632` | for every content, start and length: exactly the pages of the range become used |
| `Bitset.ResetRange` | `php-8.2.28/Zend/zend_alloc.c:634-664` | for every content, start and length: exactly the pages of the range become free |
| `Bitset.IsFreeRange` | `php-8.2.28/Zend/zend_alloc.c:666-700` | yes exactly when every page of the range is free |
| `PageSearch.Search` | `php-8.2.28/Zend/zend_alloc.c:937-998` | succeeds exactly when enough free pages in a row exist; then returns the start of a shortest such gap, the first on ties, and the exact new `free_tail`; the loops end |
| `PageSearch.TailExit` | `php-8.2.28/Zend/zend_alloc.c:966-981` | the early exit at `free_tail` is sound: everything from the open gap on is free, even where runs have grown past `free_tail` |
| `PageSearch.TailChoice` | `php-8.2.28/Zend/zend_alloc.c:968-981` | the gap at the end of the chunk is taken exactly when it fits and is shorter than the best gap so far |
| `PageInfo.LrunRoundTrip` | `php-8.2.28/Zend/zend_alloc.c:165-187` | a packed large-run entry reads back its page count |
| `PageInfo.SrunRoundTrip` | `php-8.2.28/Zend/zend_alloc.c:172-189` | a packed small-run entry reads back its bin and its counter modulo 512: the count 512 of a full bin 0 run reads as 0 |
| `PageInfo.NrunRoundTrip` | `php-8.2.28/Zend/zend_alloc.c:172-190` | a packed inner page of a small run reads back its bin and its offset |
| `Bins.BinFacts` | `php-8.2.28/Zend/zend_alloc_sizes.h:22-62` | the slots of each bin fit its pages, and only bin 0 has 512 of them |
| `Bins.RunsFull` | `php-8.2.28/Zend/zend_alloc_sizes.h:22-62` | no further slot fits the pages of a run, and the largest bin is that of the largest small size |
| `Bins.HighBit` | `php-8.2.28/Zend/zend_alloc.c:1183-1204` | the portable bit search gives the position of the highest set bit, counted from one, for all sizes it is used on |
| `Bins.SizeToBinTight` | `php-8.2.28/Zend/zend_alloc.c:1214-1239` | the bin chosen is the smallest whose slots hold the size, for every small size including 0 |
| `Chunks.TailFromRuns` | `php-8.2.28/Zend/zend_alloc.c:965-983` | "no run starts at or above `free_tail`" is all that the page search needs of `free_tail` |
| `Chunks.SearchTail` | `php-8.2.28/Zend/zend_alloc.c:965-981` | the `free_tail` a search leaves still has no run start at or above it, and the pages found are free and start below it |
| `Chunks.FindPages` | `php-8.2.28/Zend/zend_alloc.c:886-998` | the search on a chunk keeps its run structure and finds the best fit |
| `Chunks.InitEmpty` | `php-8.2.28/Zend/zend_alloc.c:841-856` | initialising a chunk whose pages are marked free gives an empty one, although seven of the eight bitset words are left as they were |
| `Chunks.TakePages` | `php-8.2.28/Zend/zend_alloc.c:1075-1081` | free pages become one large run; bitset, page map and `free_pages` agree afterwards, and `free_tail` is exact |
| `Chunks.DropPages` | `php-8.2.28/Zend/zend_alloc.c:1151-1159` | a run goes back whole; bitset, page map and `free_pages` agree afterwards, and `free_tail` is exact |
| `Chunks.ShrinkPages` | `php-8.2.28/Zend/zend_alloc.c:1664-1683` | a large run loses its last pages and nothing else changes |
| `Chunks.GrowPages` | `php-8.2.28/Zend/zend_alloc.c:1684-1711` | a large run grows exactly when the pages behind it exist and are free, and keeps the run structure although `free_tail` stays |
| `Chunks.SplitPages` | `php-8.2.28/Zend/zend_alloc.c:1261-1271` | a large run becomes a small run with an entry for each of its pages |
| `Chunks.TooFewPages` | `php-8.2.28/Zend/zend_alloc.c:886-888` | a chunk with fewer free pages than wanted has no room, so skipping it loses nothing |
| `Blocks.SlotInRun` | `php-8.2.28/Zend/zend_alloc.c:1273-1288` | every slot of a small run lies within the pages of the run |
| `Blocks.BlocksDisjoint` | `php-8.2.28/Zend/zend_alloc.c:1244-1298` | within a chunk a block has one size, and blocks at different offsets do not overlap |
| `Ledger.PopSlot` | `php-8.2.28/Zend/zend_alloc.c:1311-1315` | taking the first slot of a free list makes it live and keeps the ledger of live and free blocks balanced; that the slot's link leads to the next head is `Memory.PopLinks` |
| `Ledger.PushSlot` | `php-8.2.28/Zend/zend_alloc.c:1335-1337` | putting a live slot at the head of its list keeps the ledger balanced |
| `Ledger.TakeRun` | `php-8.2.28/Zend/zend_alloc.c:1075-1081` | a new large run is one new live block and disturbs no other |
| `Ledger.DropRun` | `php-8.2.28/Zend/zend_alloc.c:1151-1159` | freeing a large run removes one live block and no other |
| `Ledger.ResizeRun` | `php-8.2.28/Zend/zend_alloc.c:1664-1711` | resizing a run in place changes the size of one block and no other |
| `Ledger.SplitLedger` | `php-8.2.28/Zend/zend_alloc.c:1261-1297` | a new small run adds its slots: the first live, the others on the free list, none twice |
| `Ledger.AddHuge` | `php-8.2.28/Zend/zend_alloc.c:1731-1746` | listing a huge block keeps the ledger balanced, its list element being a live small block |
| `Ledger.RemoveHuge` | `php-8.2.28/Zend/zend_alloc.c:1748-1770` | unlisting a huge block keeps the ledger balanced and leaves its list element an ordinary live block |
| `Ledger.ResizeHuge` | `php-8.2.28/Zend/zend_alloc.c:1788-1806` | changing the size of a listed huge block keeps the ledger balanced |
| `Ledger.LiveDisjoint` | `php-8.2.28/Zend/zend_alloc.c:1244-1464` | in a balanced ledger no two live blocks, small, large or huge, overlap |
| `Memory.WriteInside` | `php-8.2.28/Zend/zend_alloc.c:309-320` | a write within one live block changes no byte of another live block and no link of a free list |
| `Memory.PopLinks` | `php-8.2.28/Zend/zend_alloc.c:1311-1315` | after a pop the lists are still chained up in memory, and the new head is what the popped slot links to |
| `Memory.PushLinks` | `php-8.2.28/Zend/zend_alloc.c:1335-1337` | writing the link of a freed slot chains it in front of its list and changes no byte of a live block |
| `Memory.SplitLinks` | `php-8.2.28/Zend/zend_alloc.c:1273-1297` | the links written into a new run chain up its list, and no other list or live block changes |
| `Memory.FilterDrop` | `php-8.2.28/Zend/zend_alloc.c:2014-2021` | taking a slot out by rewriting the link before it leaves the rest of the chain intact |
| `Memory.WriteFree` | `php-8.2.28/Zend/zend_alloc.c:2014-2021` | rewriting the link of a free slot changes no byte of a live block |
| `Memory.ChainReads` | `php-8.2.28/Zend/zend_alloc.c:1311-1315` | following the links of a chained list from its head reads exactly the list and then NULL |
| `Memory.PushElement` | `php-8.2.28/Zend/zend_alloc.c:1734-1745` | a filled-in element at the head continues the list of huge blocks in memory; no other live byte and no free list changes |
| `Memory.DropElement` | `php-8.2.28/Zend/zend_alloc.c:1752-1766` | rewriting the link of the element before takes exactly one element out of the list in memory; no block of a caller changes |
| `Memory.ResizeElement` | `php-8.2.28/Zend/zend_alloc.c:1791-1803` | writing a new size changes the one element and no block of a caller |
| `Memory.HugeReads` | `php-8.2.28/Zend/zend_alloc.c:1774-1780` | walking the elements in memory from the head reads exactly the addresses and sizes of the huge blocks, in order, and then NULL |
| `Collector.CountFull` | `php-8.2.28/Zend/zend_alloc.c:1967-1991` | the count of a run reaches its number of slots exactly when every slot of the run is on the free list |
| `Collector.DoomedIsCollectable` | `php-8.2.28/Zend/zend_alloc.c:1967-1991` | after counting, a counter says "full" exactly for the runs all of whose slots are free, and never for bin 0 |
| `Collector.TalliedLedger` | `php-8.2.28/Zend/zend_alloc.c:1967-2023` | after counting and filtering all bins the ledger balances with the full runs set aside |
| `Collector.SweepRun` | `php-8.2.28/Zend/zend_alloc.c:2035-2038` | giving back a full run loses no live or listed slot |
| `Collector.ResetRun` | `php-8.2.28/Zend/zend_alloc.c:2039-2042` | resetting a counter keeps the ledger |
| `Collector.SweepDone` | `php-8.2.28/Zend/zend_alloc.c:2027-2050` | stopping at `free_tail` misses no run |
| `Collector.Sweep` | `php-8.2.28/Zend/zend_alloc.c:2027-2050` | one chunk: exactly the full runs are given back and all other counters are zero again |
| `Collector.SweepEmpties` | `php-8.2.28/Zend/zend_alloc.c:2051-2058` | the sweep empties a chunk exactly when no block of it is live and it has no bin 0 run |
| `Collector.EmptiedFree` | `php-8.2.28/Zend/zend_alloc.c:2025-2050` | giving back the full runs of a chunk frees pages unless it has none |
| `Collector.CollectedBlocks` | `php-8.2.28/Zend/zend_alloc.c:1967-2059` | a slot exists after the collection exactly when it existed before and its run was not collectable |
| `Space.RetireChunk` | `php-8.2.28/Zend/zend_alloc.c:1116-1149` | a deleted chunk leaves the layout and nothing else does, whether it goes to the cache, to the system, or to the cache in exchange for its head |
| `Space.JoinFromCache` | `php-8.2.28/Zend/zend_alloc.c:1003-1006` | the head of the cache joins the ring as an empty chunk |
| `Space.JoinFromSystem` | `php-8.2.28/Zend/zend_alloc.c:1022-1055` | a fresh chunk joins the ring without overlapping anything mapped |
| `Space.TruncateMapping` | `php-8.2.28/Zend/zend_alloc.c:795-812` | unmapping the tail of a mapping touches no chunk and no other mapping |
| `Space.ExtendMapping` | `php-8.2.28/Zend/zend_alloc.c:814-839` | a mapping that grows into unmapped space stays apart from everything else |
| `Heap.DeleteChunk` | `php-8.2.28/Zend/zend_alloc.c:1116-1149` | the chunk goes to the cache, to the system, or to the cache in exchange for its head, exactly as average, history and chunk numbers say; the tally of chunks and the history are those of one more deletion; the invariant is kept, and `real_size` loses a chunk exactly when one goes to the system |
| `Heap.FiveDeletions` | `php-8.2.28/Zend/zend_alloc.c:1121-1139` | in a series of deletions that leave the same number of chunks and none in the cache, the fifth is the last that gives its chunk back; the next one is kept |
| `Heap.DelayedExactly` | `php-8.2.28/Zend/zend_alloc.c:1121-1123` | a chunk is kept exactly while the chunks left and cached exceed the average by less than a tenth, or when the series of deletions is long enough |
| `Heap.DeletionsCached` | `php-8.2.28/Zend/zend_alloc.c:1120-1127` | while no more chunks are in use and cached than on average, any number of deletions only moves chunks to the cache |
| `Heap.CountBin` | `php-8.2.28/Zend/zend_alloc.c:1968-1991` | counting a free list leaves at each run of the bin the number of its listed slots |
| `Heap.FilterBin` | `php-8.2.28/Zend/zend_alloc.c:1993-2022` | exactly the slots of full runs leave the list; the others keep their order; all lists are chained up in memory afterwards and no live byte has changed |
| `Heap.CountAndFilter` | `php-8.2.28/Zend/zend_alloc.c:1967-2023` | both passes over all bins: each list keeps exactly its survivors, chained up in memory, no live byte changes, and the heap balances with the full runs set aside |
| `Heap.SweepRing` | `php-8.2.28/Zend/zend_alloc.c:2025-2059` | the sweep over all chunks restores the invariant between operations, counts exactly the pages it gives back, and loses the main chunk exactly when its sweep emptied it; otherwise exactly the chunks it emptied leave the ring, each deletion decided after the one before, and no chunk but the main one stays empty |
| `Heap.Gc` | `php-8.2.28/Zend/zend_alloc.c:1950-2062` | removes exactly the runs of bins 1 to 29 all of whose slots are free and exactly their slots from the lists, relinks the rest in order without touching a live byte, returns exactly the bytes of the pages given back, and 0 exactly when there was nothing to collect; leaves all counters zero, nothing to collect and fewer free slots whenever it reports progress; exactly the chunks left without runs leave the ring, and the main chunk is deleted exactly when nothing pins it |
| `Heap.SearchRing` | `php-8.2.28/Zend/zend_alloc.c:881-1062` | finds the first chunk in list order that has room and in it the best fit, or none exactly when no chunk has room |
| `Heap.TakeCached` | `php-8.2.28/Zend/zend_alloc.c:1003-1055` | a cached chunk joins as empty as a fresh one, numbered one above the last; counters and peaks agree |
| `Heap.TakeMapped` | `php-8.2.28/Zend/zend_alloc.c:1022-1055` | a fresh chunk joins, numbered one above the last; counters, peaks and `real_size` agree |
| `Heap.MapOrCollect` | `php-8.2.28/Zend/zend_alloc.c:1022-1040` | a mapping, unless the system refuses and there is nothing to collect, or it refuses again after the collection; a failure leaves nothing to collect |
| `Heap.GetChunk` | `php-8.2.28/Zend/zend_alloc.c:1002-1055` | terminates, and ends with an empty chunk at the end of the ring, an error that keeps the heap, or the loss of the main chunk; it succeeds whenever the cache has a chunk or the limit has room for one and the system refuses no mapping, and fails only with nothing left to collect and, unless the system refused, no room under the limit; `real_size` and the peaks are exact |
| `Heap.FinishPages` | `php-8.2.28/Zend/zend_alloc.c:1065-1082` | moving a chunk up the list and marking the run keeps the invariant and hands out exactly one block; the ring changes only by that move |
| `Heap.AllocPages` | `php-8.2.28/Zend/zend_alloc.c:879-1083` | hands out pages no live block uses; if any chunk has room, it succeeds with the best fit of the first such chunk and nothing is mapped; otherwise it succeeds whenever a chunk is cached or fits under the limit and the system refuses none, with the first pages of that chunk; the order of the chunks is exact, a chunk found late for a few pages moving up; a failure leaves nothing to collect; the memory limit is kept |
| `Heap.MovedUpOrder` | `php-8.2.28/Zend/zend_alloc.c:1065-1072` | a chunk that moves up comes second, and those it passes fall back by one |
| `Heap.HeadroomFits` | `php-8.2.28/Zend/zend_alloc.c:1009-1009` | while `real_size` is within the limit, passing the check means that the bytes fit under the limit |
| `Heap.LimitGone` | `php-8.2.28/Zend/zend_alloc.c:1009-1009` | once `real_size` exceeds the limit the unsigned difference wraps around and is nearly all of `size_t` |
| `Allocator.AllocSmallSlow` | `php-8.2.28/Zend/zend_alloc.c:1244-1298` | a new run: one slot handed out, the others listed, all live bytes kept; succeeds whenever the pages of a run can be had |
| `Allocator.ThreadSlots` | `php-8.2.28/Zend/zend_alloc.c:1273-1297` | the list of a new run is chained up in memory in order, and nothing outside the run is written |
| `Allocator.SplitBlock` | `php-8.2.28/Zend/zend_alloc.c:1261-1297` | a live block of pages becomes a run of slots with only its first slot live |
| `Allocator.AllocSmall` | `php-8.2.28/Zend/zend_alloc.c:1300-1318` | a slot of the bin not live before; a popped slot is the old head and the new head is the link read from it; succeeds whenever a slot is listed or the pages of a run can be had; the memory limit is kept; on failure the size stays counted although no block exists |
| `Allocator.FreeSmall` | `php-8.2.28/Zend/zend_alloc.c:1320-1338` | the slot heads its free list; no other live byte changes |
| `Allocator.AllocLarge` | `php-8.2.28/Zend/zend_alloc.c:1085-1102` | a block of whole pages, at least as large as asked; succeeds whenever a chunk has room, and then at the best fit of the first such chunk, or a chunk can be had |
| `Allocator.FreeLarge` | `php-8.2.28/Zend/zend_alloc.c:1151-1176` | the pages go back; the chunk leaves the ring exactly when it is emptied and not the main one |
| `Allocator.InfoOf` | `php-8.2.28/Zend/zend_alloc.c:1413-1464` | the page map entry found from a live pointer tells its kind and its true size |
| `Allocator.MapHuge` | `php-8.2.28/Zend/zend_alloc.c:1826-1856` | a mapping, certain whenever it fits under the limit and the system refuses none, that fits under the limit whenever the heap was within it, after at most two collections; or a failure that keeps the heap, with nothing left to collect and, unless the system refused, no room under the limit |
| `Allocator.AddHugeBlock` | `php-8.2.28/Zend/zend_alloc.c:1731-1746` | the element is a new small block, filled in and linked at the head of the list in memory; succeeds whenever a slot for the element can be had; `real_size` grows by exactly the block when the element needs no chunk, and by a chunk more when it does, the limit has room for a chunk and the system refuses no mapping; the peaks are exact |
| `Allocator.NodeLimit` | `php-8.2.28/Zend/zend_alloc.c:1826-1860` | with room for the block under the limit, adding the element exceeds it only if the element needs a chunk that does not fit beside the block, and then always unless the system refuses a mapping |
| `Allocator.AllocHuge` | `php-8.2.28/Zend/zend_alloc.c:1808-1879` | a mapping with its list element, both accounted for, certain whenever the block fits under the limit and the system refuses no mapping; a failure of the element leaves the mapping unlisted and the element counted; from within the limit, and when the system refuses no mapping, the limit is exceeded exactly when the element needs a chunk of its own and the limit has no room for block and chunk together, in the heap as it is or, if the block did not fit at first, as a collection left it; a refusal starts a collection that may make room, so then only one direction holds |
| `Allocator.FindHuge` | `php-8.2.28/Zend/zend_alloc.c:1772-1783` | the position of the block in the list, if it is there |
| `Allocator.FreeHuge` | `php-8.2.28/Zend/zend_alloc.c:1881-1894` | block and list element are gone, sizes and mapping with them; the list in memory skips the element; no byte of another block of a caller changes |
| `Allocator.AllocHeap` | `php-8.2.28/Zend/zend_alloc.c:1368-1411` | a block not live before, of exactly the size class of the request and at least the request; accounting and peaks exact; succeeds whenever a slot or room for the pages is there, or a chunk is cached or fits under the limit (a huge block: whenever it fits under the limit), and the system refuses no mapping, and fails only with nothing left to collect or a size that wraps around; the memory limit is kept, and by huge blocks exceeded by at most one chunk and under the condition of `Allocator.AllocHuge`; on failure blocks and bytes are unchanged and `size` is off by exactly what the failed small allocation counted |
| `Allocator.SizeOf` | `php-8.2.28/Zend/zend_alloc.c:1438-1464` | the true size of every live block |
| `Allocator.FreeHeap` | `php-8.2.28/Zend/zend_alloc.c:1413-1436` | exactly this block is gone; all other blocks of callers keep their sizes and bytes; accounting exact; `real_size` loses exactly a huge block, at most the chunk of a large one, and nothing for a small one; an emptied chunk other than the main one leaves the ring |
| `Realloc.MoveBlock` | `php-8.2.28/Zend/zend_alloc.c:1466-1482` | allocate, copy, free keeps the copied bytes, all other blocks, and the accounting, exactly when the copy fits the new block; otherwise the heap is as after the allocation but for the bytes copied, there and beyond; a failure changes no block |
| `Realloc.MoveExact` | `php-8.2.28/Zend/zend_alloc.c:1466-1482` | when a block moves to a huge one and the system refuses no mapping, a small block leaves the limit exceeded exactly when the list element of the new block does, a large block exactly when besides its chunk is not given back, and a huge block of at least a chunk never |
| `Realloc.InPlace` | `php-8.2.28/Zend/zend_alloc.c:1605-1618` | a block that stays keeps its bytes, and so do all others |
| `Realloc.ShrinkInPlace` | `php-8.2.28/Zend/zend_alloc.c:1664-1683` | a large block that loses pages keeps its bytes, and so do all others; accounting exact |
| `Realloc.GrowInPlace` | `php-8.2.28/Zend/zend_alloc.c:1684-1711` | a large block grows in place exactly when the pages behind it exist and are free; all bytes kept, accounting exact |
| `Realloc.ResizeInPlace` | `php-8.2.28/Zend/zend_alloc.c:1649-1711` | a large block can stay exactly when it need not grow or the pages behind it are free; then it keeps its bytes, and so do all others |
| `Realloc.AlignedSize` | `php-8.2.28/Zend/zend_alloc.c:1501-1510` | rounding a size up to pages gives 0 exactly for 0 and for sizes that wrap around, and otherwise the next whole number of pages |
| `Realloc.SmallestBlock` | `php-8.2.28/Zend/zend_alloc.c:1368-1411` | the block for a request is the smallest of all sizes of bins and whole pages that is large enough |
| `Realloc.ResizeMapping` | `php-8.2.28/Zend/zend_alloc.c:1501-1562` | a huge block stays exactly when it need not grow, or when it fits under the limit, perhaps after a collection, and the system can extend it; then its new size is exact, its bytes are kept, and so are all others; a failure means that the limit has no room |
| `Realloc.ResizedValid` | `php-8.2.28/Zend/zend_alloc.c:1510-1562` | truncating or extending a huge block in place keeps the heap invariant, `real_size` and the list in memory, and no byte of a caller's block changes |
| `Realloc.ReallocHuge` | `php-8.2.28/Zend/zend_alloc.c:1484-1569` | same size, truncated, extended or moved: the first min(old, new, copy size) bytes are kept, the new size is exact and no other block changes, exactly unless the copy overruns a small or large new block or the size wraps around; then the block is left with 0 bytes; a block moves only if the system cannot extend it |
| `Realloc.OverrunHits` | `php-8.2.28/Zend/zend_alloc.c:1475-1475` | a live block right behind the new one loses its first byte to a copy that overruns, unless the byte is the same |
| `Realloc.ReallocSmall` | `php-8.2.28/Zend/zend_alloc.c:1599-1647` | a small block never overruns: in its bin, to a smaller one, to a larger one or by the slow path its first bytes are kept; the new block has exactly the size class of the request, or stays in the bin above the one the request fills |
| `Realloc.StaysExactly` | `php-8.2.28/Zend/zend_alloc.c:1605-1614` | a slot stays exactly when its bin is the one for the new size, or the next above a bin that the new size fills |
| `Realloc.ReallocBlock` | `php-8.2.28/Zend/zend_alloc.c:1571-1722` | through every path and for every copy size the first min(old, new, copy size) bytes are kept, the block has exactly the size class of the request, or stays in the bin above one the request fills, no byte of any other block changes and the accounting is exact; this holds exactly when the copy does not overrun the new block and the size does not wrap around for a huge block; which blocks stay where they are, and when the move succeeds, is exact |
| `Lifecycle.Init` | `php-8.2.28/Zend/zend_alloc.c:1900-1948` | a heap that satisfies the invariant with no block and one chunk; counters, peaks and history are those of a new heap |
| `Lifecycle.SetMemoryLimit` | `php-8.2.28/Zend/zend_alloc.c:2720-2742` | succeeds exactly when chunks in use and huge blocks fit; then just enough cached chunks are given back and the loop never finds the cache empty; success through the loop leaves the old limit |
| `Lifecycle.UnmapAll` | `php-8.2.28/Zend/zend_alloc.c:2298-2305` | exactly the segments of huge blocks are given back, and nothing else is |
| `Lifecycle.ParkAll` | `php-8.2.28/Zend/zend_alloc.c:2307-2316` | all chunks but the main one are in the cache, the last of the ring first |
| `Lifecycle.TrimCache` | `php-8.2.28/Zend/zend_alloc.c:2328-2336` | exactly the chunks at the head of the cache are given back until the average allows the rest, and no further |
| `Lifecycle.WipeCache` | `php-8.2.28/Zend/zend_alloc.c:2337-2344` | every chunk left in the cache has an all-zero header |
| `Lifecycle.Shutdown` | `php-8.2.28/Zend/zend_alloc.c:2298-2373` | the end of a request: no block remains, exactly the huge mappings and just enough cached chunks are given back, the chunks kept are all-zero, the main chunk, counters, peaks and history are as new, and the heap satisfies the invariant |
| `Lifecycle.ShutdownFull` | `php-8.2.28/Zend/zend_alloc.c:2298-2326` | the end of the process: exactly the segments of the heap are given back, chunks, cache and huge blocks, and no other |
| `Manager.LiveBlocksDisjoint` | `php-8.2.28/Zend/zend_alloc.c:1244-1464` | in every state that satisfies the invariant no two live blocks share a byte |
| `Manager.FreeListsExact` | `php-8.2.28/Zend/zend_alloc.c:1300-1337` | in every such state each free list holds exactly the slots of its bin that are not live, each once |
| `Manager.ChunkFacts` | `php-8.2.28/Zend/zend_alloc.c:207-225` | in every chunk in use `free_pages` counts the clear bits, the bitset marks exactly the pages of runs, and no run starts at or above `free_tail` |
| `Manager.ChainsInMemory` | `php-8.2.28/Zend/zend_alloc.c:1300-1337` | in every such state following the links in memory from the head of a free list gives exactly that list and ends |
| `Manager.HugeListInMemory` | `php-8.2.28/Zend/zend_alloc.c:1772-1783` | in every such state walking the list of huge blocks in memory gives exactly the huge blocks with their sizes and ends |
| `Manager.ExceedLimit` | `php-8.2.28/Zend/zend_alloc.c:1826-1860` | a run that exceeds the memory limit by the chunk of a list element whenever the system gives the memory; from then on the checks let nearly any size through |
| `Manager.LinkDestroyed` | `php-8.2.28/Zend/zend_alloc.c:1475-1475` | a copy that overruns a new run of bin 0 destroys the link of its second slot, after which no view of the blocks makes the heap valid |
| `Manager.OverrunRun` | `php-8.2.28/Zend/zend_alloc.c:1466-1482` | a run with such a copy whenever memory is given: two pages made into eight bytes with both pages to be copied |
| `Manager.NewHeapUnpinned` | `php-8.2.28/Zend/zend_alloc.c:2025-2059` | the main chunk of a heap that has handed out no page is not pinned, so a collection then deletes it |
| `Manager.MMHeap.Start` | `php-8.2.28/Zend/zend_alloc.c:1900-1948` | a new heap object holds nothing, `size` is 0, no block is live, no slot is free and the limit is respected |
| `Manager.MMHeap.Alloc` | `php-8.2.28/Zend/zend_alloc.c:2380-2383` | keeps the invariant and `size <= peak`; a new block, certain under the condition of `Allocator.AllocHeap`, or no change to any block and nothing left to collect; the limit is kept for all but huge blocks, and for those exceeded by at most one chunk and under the exact condition of `Allocator.AllocHuge` |
| `Manager.MMHeap.Store` | `php-8.2.28/Zend/zend_alloc.c:309-320` | a caller that writes a byte of its block changes no other block, no free list and not the list of huge blocks |
| `Manager.MMHeap.Free` | `php-8.2.28/Zend/zend_alloc.c:2385-2388` | keeps the invariant and the limit; exactly the given block goes, the caller's other blocks are untouched, an emptied chunk other than the main one leaves the ring, and NULL is ignored |
| `Manager.MMHeap.Size` | `php-8.2.28/Zend/zend_alloc.c:2400-2403` | the size of a live block |
| `Manager.MMHeap.Realloc` | `php-8.2.28/Zend/zend_alloc.c:2390-2398` | the contract of reallocation on the object for every copy size, with the exact size and place of the new block, NULL as allocation, the two exact conditions under which it goes wrong, and what a move means for the limit |
| `Manager.MMHeap.Collect` | `php-8.2.28/Zend/zend_alloc.c:1950-2062` | a collection keeps every block of callers and the limit, returns exactly the bytes of the pages given back, and 0 exactly when there was nothing to collect, takes exactly the chunks left without runs out of the ring and leaves nothing to collect, or loses the main chunk exactly when nothing pins it |
| `Manager.MMHeap.SetLimit` | `php-8.2.28/Zend/zend_alloc.c:2720-2742` | keeps the invariant, all blocks and the respect for the limit; success exactly when what is in use fits |
| `Manager.MMHeap.Finish` | `php-8.2.28/Zend/zend_alloc.c:2298-2373` | the heap is empty again, with the cache trimmed to the new average and counters, peaks and history as new |
| `Scheduler.Release` | `php-8.2.28/run-tests.php:1537-1549` | exactly the finished worker's keys become free; tests waiting for them go back so that tests with one and the same key keep their order; none is lost |
| `Scheduler.PopAll` | `php-8.2.28/run-tests.php:1541-1543` | popping a waiting list puts its first test on top of the stack |
| `Scheduler.OnlyHolds` | `php-8.2.28/run-tests.php:1566-1571` | the tests whose order is kept are those with one conflict key and no other |
| `Scheduler.TakeBatch` | `php-8.2.28/run-tests.php:1565-1573` | the batch is exactly the tests of the stack without a taken key, from the top and in order, up to one more than the batch size; set-aside tests wait for a taken key of theirs; order and tests conserved |
| `Scheduler.OneMore` | `php-8.2.28/run-tests.php:1565-1573` | two tests without conflicts and a batch size of 1: both are in the batch |
| `Scheduler.FirstTaken` | `php-8.2.28/run-tests.php:1566-1571` | a key of the test that is taken, or the certainty that none is |
| `Scheduler.Occupy` | `php-8.2.28/run-tests.php:1574-1579` | exactly the keys of the batch are entered with the worker |
| `Scheduler.BatchSize` | `php-8.2.28/run-tests.php:1562-1564` | the smallest batch size with which the workers together take all tests, within 1 and the maximum for the kind of run |
| `Scheduler.OnFinished` | `php-8.2.28/run-tests.php:1535-1549` | keeps the scheduler invariant; the worker holds nothing any more |
| `Scheduler.MergeSequential` | `php-8.2.28/run-tests.php:1551-1555` | once one worker is left the sequential tests go under the others and none remains apart; the order of keyed tests is kept |
| `Scheduler.Assign` | `php-8.2.28/run-tests.php:1556-1591` | keeps the invariant; the batch sent is exactly the free tests from the top up to one more than the batch size, or the worker is retired and then the stack is empty; each decision makes progress |
| `Scheduler.OnMessage` | `php-8.2.28/run-tests.php:1534-1592` | keeps the invariant and makes progress for either message of any live worker; the batch is exactly the free tests from the top, up to one more than the batch size for the workers left |
| `Scheduler.NobodyWaits` | `php-8.2.28/run-tests.php:1501-1501` | when no batch is out, no test waits: the loop guard may ignore the waiting lists |
| `Scheduler.SomeoneOwes` | `php-8.2.28/run-tests.php:1501-1505` | while work is left some worker is alive and owes a message |
| `Scheduler.AllDone` | `php-8.2.28/run-tests.php:1501-1665` | when the loop ends, every test has been sent exactly once and every batch has come back |
| `Scheduler.ExactExclusive` | `php-8.2.28/run-tests.php:1574-1578` | if `activeConflicts` is exact, no two workers hold tests with a common key |
| `Scheduler.Partition` | `php-8.2.28/run-tests.php:1364-1393` | the tests conflicting with "all" are set apart in order; the others keep their order |
| `Scheduler.RunAll` | `php-8.2.28/run-tests.php:1347-1665` | for every interleaving the run ends; the workers are as many as requested, but no more than there are parallel tests and at least one; every test is sent exactly once and comes back, in batches of at most 33 tests, 5 when shuffled and 2 under valgrind; at every moment no two workers share a key and an "all" test runs only when one worker is left; decisions number at most tests plus workers; without shuffle tests with the same one key are sent in their original order |
| `Modules.EndsSorted` | `php-8.2.28/Zend/zend_API.c:2255-2287` | a sort that ends leaves a permutation in which no unstarted module precedes a dependency |
| `Modules.StepUnique` | `php-8.2.28/Zend/zend_API.c:2263-2286` | each turn of the sort is determined |
| `Modules.SortedAcyclic` | `php-8.2.28/Zend/zend_API.c:2255-2287` | an order without inversions exists only if no dependencies close a cycle |
| `Modules.ChainNext` | `php-8.2.28/Zend/zend_API.c:2264-2280` | without cycles a dependency swapped to the front has not been there before, so the jumps back to try_again are bounded |
| `Modules.HaltsIffAcyclic` | `php-8.2.28/Zend/zend_API.c:2255-2287` | the sort ends exactly when no required or optional dependencies of unstarted modules form a cycle through two or more modules |
| `Modules.MutualDependency` | `php-8.2.28/Zend/zend_API.c:2255-2287` | two modules that name each other keep the sort busy for ever |
| `Modules.LowerStays` | `php-8.2.28/Zend/zend_API.c:2273-2273` | a name without capitals is its own lower-case form |
| `Modules.LowerAt` | `php-8.2.28/Zend/zend_API.c:2209-2209` | lower-casing turns exactly the capitals, each into its small letter |
| `Modules.LowerSame` | `php-8.2.28/Zend/zend_API.c:2273-2273` | two lower-case forms are equal exactly when the names differ at most in the case of letters |
| `Modules.EdgeExactly` | `php-8.2.28/Zend/zend_API.c:2264-2277` | the sort follows exactly the required and optional dependencies of unstarted modules, by name without regard to case |
| `Modules.MetExactly` | `php-8.2.28/Zend/zend_API.c:2204-2211` | a required dependency is met exactly when a started module has its name, without regard to case |
| `Modules.PdoOrder` | `php-8.2.28/ext/pdo_pgsql/pdo_pgsql.c:30-33` | `pdo_pgsql`, which requires "pdo", has the module "PDO" before it in the one sorted order of the two, and can start exactly with it |
| `Modules.PdoStarts` | `php-8.2.28/ext/pdo_pgsql/pdo_pgsql.c:30-33` | registered in the other order, the two are swapped and both start |
| `Modules.FindMatch` | `php-8.2.28/Zend/zend_API.c:2265-2284` | finds the first dependency with a match behind the position and its first match, or shows that there is none; names match without regard to case |
| `Modules.SortModules` | `php-8.2.28/Zend/zend_API.c:2255-2287` | the in-place sort ends on acyclic input with a sorted permutation, and is a run of the step relation |
| `Modules.StartModule` | `php-8.2.28/Zend/zend_API.c:2189-2222` | a module starts exactly when it was started or each required dependency is registered and started, itself counting as started |
| `Modules.StartAll` | `php-8.2.28/Zend/zend_API.c:2234-2252` | after the walk the registry holds, in order and started, exactly the modules whose required dependencies are in it; it ends the process exactly when one that gets to start fails to |
| `Modules.StartSetUnique` | `php-8.2.28/Zend/zend_API.c:2371-2375` | the set of modules that start does not depend on the order of registration |
| `Modules.StartupModules` | `php-8.2.28/Zend/zend_API.c:2371-2375` | sorting and starting together start exactly the modules whose required dependencies start, and remove the others; the process ends exactly when one of them fails to start |
| `Tsrm.UpdateActive` | `php-8.2.28/TSRM/TSRM.c:248-273` | every entry gets the new slots and their constructors run in table order |
| `Tsrm.UpdateEntry` | `php-8.2.28/TSRM/TSRM.c:254-269` | an entry gets its missing slots, in its own block for fast resources, each constructed once in id order |
| `Tsrm.AllocateId` | `php-8.2.28/TSRM/TSRM.c:277-311` | keeps the invariant: every thread has the new slot, constructed once |
| `Tsrm.AllocateFastId` | `php-8.2.28/TSRM/TSRM.c:323-369` | fails exactly when the reserved space is short of the size rounded to 16; otherwise keeps the invariant with a place aligned to 16 and apart from all others, which is as large as asked exactly when rounding does not wrap around |
| `Tsrm.FastSizeWraps` | `php-8.2.28/TSRM/TSRM.h:56-57` | the largest size is rounded to 0 |
| `Tsrm.FailedIdLags` | `php-8.2.28/TSRM/TSRM.c:330-341` | after such a failure the entries lag behind the id count, so the invariant is broken for any thread there is |
| `Tsrm.Reserve` | `php-8.2.28/TSRM/TSRM.c:315-319` | starting the reserved space over keeps the invariant exactly when no thread exists or the rounded size stays, fast resources are empty, and block and header fit in `size_t` |
| `Tsrm.NewEntry` | `php-8.2.28/TSRM/TSRM.c:378-414` | a new entry has a slot for every id, NULL exactly for the freed ones, and one constructor call for each other |
| `Tsrm.FetchSlow` | `php-8.2.28/TSRM/TSRM.c:444-505` | the entry of the thread, found, made, or made anew in place of a stale one after its destructors; for a live id the slot read is the one made for this entry and id; the invariant holds; every thread pointer still names its own entry exactly when the caller asked for itself or the thread had an entry |
| `Tsrm.Fetch` | `php-8.2.28/TSRM/TSRM.c:417-506` | reads the slot of the thread's one entry, by pointer or by hash table, while thread pointers name their own entries: NULL for a freed id, the place at the offset for a fast one, and else the block made for this entry and id; a pointer leads nowhere exactly when its entry has been torn down |
| `Tsrm.ReadDelivers` | `php-8.2.28/TSRM/TSRM.c:97-102` | reading an entry at an id gives the block made for that entry and id |
| `Tsrm.ForeignRequest` | `php-8.2.28/TSRM/TSRM.c:417-541` | a run that leaves a thread with a pointer to nothing: it asks for another thread that has no entry, and that thread then ends |
| `Tsrm.FastAgrees` | `php-8.2.28/TSRM/TSRM.h:165-168` | for a live fast id the slot of the calling thread is its thread pointer plus the offset, aligned and within its own entry: access by offset and by id agree |
| `Tsrm.SlotsApart` | `php-8.2.28/TSRM/TSRM.c:248-273` | slots in use of different threads or ids are different memory, zero-size fast resources aside |
| `Tsrm.FreeResources` | `php-8.2.28/TSRM/TSRM.c:164-180` | the destructors of one entry |
| `Tsrm.DeathsDescend` | `php-8.2.28/TSRM/TSRM.c:166-177` | thread teardown runs in descending id order |
| `Tsrm.FreeThread` | `php-8.2.28/TSRM/TSRM.c:510-541` | exactly the calling thread's entry is torn down and unlinked, its pointer is cleared, and the other pointers still name their own entries |
| `Tsrm.FreeId` | `php-8.2.28/TSRM/TSRM.c:544-577` | every thread's copy is destroyed once, and freeing an id twice calls nothing |
| `Tsrm.Shutdown` | `php-8.2.28/TSRM/TSRM.c:183-235` | for every entry and id ever: constructor at most once, destructor exactly as often |
| `Tsrm.Startup` | `php-8.2.28/TSRM/TSRM.c:119-162` | an empty table, which satisfies the invariant exactly when at least one thread is expected |
| `Arenas.TestExact` | `php-8.2.28/Zend/zend_arena.h:99-111` | the half-open address test singles out the arena of the checkpoint, even when arenas touch |
| `Arenas.CutPiece` | `php-8.2.28/Zend/zend_arena.h:53-61` | a new piece is aligned and overlaps no piece in use |
| `Arenas.ContainsPieces` | `php-8.2.28/Zend/zend_arena.h:113-122` | every piece in use is reported as contained |
| `Arenas.ContainsStranger` | `php-8.2.28/Zend/zend_arena.h:113-122` | other memory is reported as contained exactly when it begins where a full arena ends |
| `Arenas.AdjacentClaimed` | `php-8.2.28/Zend/zend_arena.h:113-122` | such a wrong report for a concrete arena |
| `Arenas.LargestExact` | `php-8.2.28/Zend/zend_arena.h:58-66` | 2^64 - 32 is the largest size for which neither rounding up nor adding the header wraps around |
| `Arenas.LargeSizesWrap` | `php-8.2.28/Zend/zend_arena.h:58-66` | two sizes past it: one rounds to 0, the other to 0 with the header added |
| `Arenas.Cut` | `php-8.2.28/Zend/zend_arena.h:53-77` | the pointer, the block and the chain for every size, wrapped or not: a piece that fits is the next of the first block, and otherwise the first of a new block as large as the last one or just large enough |
| `Arenas.ArenaStack.Create` | `php-8.2.28/Zend/zend_arena.h:34-42` | a chain of one arena, sound exactly when the size has room for the header |
| `Arenas.ArenaStack.Alloc` | `php-8.2.28/Zend/zend_arena.h:53-77` | a new piece, aligned, as large as asked and apart from all others, at the place `Arenas.Cut` gives, and all checkpoints restorable, exactly for sizes up to 2^64 - 32; past that the piece is no piece at all or ends inside the header of its arena |
| `Arenas.ArenaStack.Checkpoint` | `php-8.2.28/Zend/zend_arena.h:94-97` | the pointer stands for the whole state |
| `Arenas.ArenaStack.Release` | `php-8.2.28/Zend/zend_arena.h:99-111` | chain and pieces are those of the checkpoint again, after any allocations and nested checkpoints, and exactly the arenas added since are freed |
| `Arenas.ArenaStack.Contains` | `php-8.2.28/Zend/zend_arena.h:113-122` | the answer of the search over the chain |
| `Arenas.ArenaStack.Destroy` | `php-8.2.28/Zend/zend_arena.h:44-51` | every arena of the chain is freed once |
| `ArenaMemory.BlockPlace` | `php-8.2.28/Zend/zend_alloc.c:1368-1411` | every live block of the heap is aligned to 8, ends within the address space, and is found from its address |
| `ArenaMemory.Emalloc` | `php-8.2.28/Zend/zend_arena.h:63-67` | what arena allocation relies on is what the heap does: a block aligned, within the address space and apart from all arenas held, which all stay |
| `ArenaMemory.Efree` | `php-8.2.28/Zend/zend_arena.h:44-51` | freeing the newest arena takes exactly its block from the heap and leaves the other arenas where they are |
| `ArenaMemory.PieceApart` | `php-8.2.28/Zend/zend_arena.h:53-77` | a piece of an arena on the heap overlaps no other live block of the heap |
| `Printer.Buffer.PrintValue` | `php-8.2.28/Zend/zend.c:475-543` | ends on every graph, cyclic or not, leaves every flag as it found it, and prints what the path-based definition says, cutting as often as that says |
| `Printer.Buffer.PrintHash` | `php-8.2.28/Zend/zend.c:311-359` | the same for a table of elements |
| `Printer.Buffer.PrintArray` | `php-8.2.28/Zend/zend.c:478-489` | the array case: an array being printed is cut, another is flagged, printed and unflagged; immutable arrays carry no flag |
| `Printer.Buffer.PrintObject` | `php-8.2.28/Zend/zend.c:490-523` | the object case, with objects that have no property table |
| `Printer.Buffer.PrintFlat` | `php-8.2.28/Zend/zend.c:411-463` | ends on every graph, leaves every flag as it found it, and prints the flat form by path |
| `Printer.Buffer.PrintFlatHash` | `php-8.2.28/Zend/zend.c:362-382` | the same for a flat table |
| `Printer.Buffer.PrintFlatArray` | `php-8.2.28/Zend/zend.c:414-426` | the array case of the flat form |
| `Printer.Buffer.PrintFlatObject` | `php-8.2.28/Zend/zend.c:427-447` | the object case of the flat form |
| `Printer.AppendsText` | `php-8.2.28/Zend/zend.c:475-543` | printing only appends, and what it appends does not depend on the buffer |
| `Printer.CutIffCycle` | `php-8.2.28/Zend/zend.c:475-543` | printing a value cuts something exactly when a cycle can be reached from it |
| `Printer.UncutText` | `php-8.2.28/Zend/zend.c:475-543` | when nothing is cut the text is the plain unfolding of the value, defined without flags or path: shared values are printed in full wherever they occur |
| `Printer.UncutFlat` | `php-8.2.28/Zend/zend.c:411-463` | the same for the flat form |
| `Printer.CutTexts` | `php-8.2.28/Zend/zend.c:478-484` | a value that is being printed is its heading and the mark of recursion |
| `Printer.OpenText` | `php-8.2.28/Zend/zend.c:485-489` | any other is its heading, the elements indented by four in brackets, and the closing bracket |
| `Printer.OpenFlat` | `php-8.2.28/Zend/zend.c:414-426` | the same in the flat form |
| `Printer.FlatPair` | `php-8.2.28/Zend/zend.c:370-381` | elements of the flat form are separated by commas |
| `Printer.SelfText` | `php-8.2.28/Zend/zend.c:475-543` | the text of an array or object that holds nothing but itself, directly or by reference |
| `Printer.SelfFlat` | `php-8.2.28/Zend/zend.c:411-463` | the same in the flat form |
| `Printer.SelfArrayText` | `php-8.2.28/Zend/zend.c:475-543` | the text of an array with a reference to itself, written out in both forms |
| `Printer.MarksPerCut` | `php-8.2.28/Zend/zend.c:475-543` | the mark of recursion stands in the text exactly once for every cut |
| `Printer.FlatMarksPerCut` | `php-8.2.28/Zend/zend.c:411-463` | the same for the flat form |

## Left out

- The application code (`app/`, `config/`, `routes/` and the root scripts): web pages and calls to a payment service, with no state or algorithm of their own.
- Update in place of heap and chunk headers: the heap operations take and return records, so aliasing between headers and blocks is not captured; `MMHeap`, the bitsets, the module array, the arenas and the print buffer are updated in place. The global tables of TSRM and the variables of the scheduler's loop are records too.
- Arenas.ArenaStack.Alloc: the memory of an arena comes from an allocator that promises disjoint blocks; that the heap keeps this promise is proved beside it, in `ArenaMemory`, not inside the object.
- Printer.Buffer.PrintHash: how property names are unmangled and numbers formatted is not modelled.
- Scheduler.RunAll: processes, sockets, message decoding, error messages of workers and the recording of results are abstracted to messages.
- `zend_parse_va_args`, `zend_collect_module_handlers`, the map_ptr tables and the array diff of `run-tests.php`: separate components without a tie to the invariants above.
- ZEND_DEBUG leak checking, custom and tracked heaps, storage handlers and huge pages: more cases without new invariants.
