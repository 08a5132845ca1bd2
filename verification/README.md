# ERESI in Dafny: the allocator proxy, DUMP routing, and the hash table

A model of three parts of the ERESI framework, with proofs.

**The allocator proxy** (`liballocproxy/`) is a patched ptmalloc2: chunks with boundary tags, fastbins, an unsorted
list, 128 bins with a bitmap, arenas made of aligned heaps that grow and shrink. `Arenas.Arena` is the arena with its
fields updated in place. Memory is counted in granules of `2*SIZE_SZ` bytes (8 or 16), which is `MALLOC_ALIGNMENT`;
each granule has an even word (`lo`: `prev_size` or `fd`) and an odd word (`hi`: `size` with its flags, or `bk`).
Ghost state names what every chunk is: live, in a fastbin, binned, top, or one of the end markers. The invariant
(`Arena.Valid`, `State.Good`) says that chunks tile every region up to the top or its end markers, that every boundary
tag tells the truth, that no free chunk borders another or the top, that every free chunk is in exactly one consistent
list, in the bin of its size, sorted in large bins, and that a clear bit of the bitmap means an empty bin. Every
operation keeps it, every method reports in `ok` that none of the code's integrity checks fired, and whole client runs
are covered by `Sessions.Play`. System calls answer as they like: the answers are a parameter of every operation
(`SystemCalls.Answers`), an address that can be mapped or a failure, and the contracts say what follows from them.
Because `aproxy_sbrk` always fails, the main arena takes the mmap path only.

**The arena ring** (`ArenaRing`, `ArenaSearch`, `ArenaProgress`, `ArenaDeadlock`) is the interleaving of threads in
`arena_get`, `arena_get2` and the fork handlers, as a step relation over the shared links, mutexes and thread-specific
pointers; one step is one access.

**Mapped chunks** (`MappedChunks`) are the chunks above the mmap threshold, in bytes; **the overrun marker**
(`OverrunMarker`, `HookTests`) is the byte chain of the checking hooks and the tests before it is walked.

**DUMP** (`libdump/`) finds a route by flooding a request, sends a reply back along the recorded path while every node
rewrites its entry, and then sends data forward. `DumpNode` has a node's tables and handlers, `DumpQueue` its queue of
waiting packets as linked cells, `DumpNet` and `DumpRuns` all runs of a network, in which a node that exits takes and
sends nothing more, `DumpQuiet` how runs end, `DumpFate` what becomes of every reply and data packet, and `DumpSearch`
that searches succeed. Addresses are unique, adjacent nodes share one link, request ids do not expire, ids drawn at
random are new.

**The hash table** (`libaspect/libhash.c`) is chained, with the first entry of a bucket in line. `HashTables.Hash` has
the entries as linked objects and refines a finite map.

Some promises turned out not to hold, and the lemmas say exactly when they do:

- data need not follow the route when a request passes its originator again (`DumpRuns.RouteOutcome`);
- a reply to such a request can make its originator exit (`DumpFate.ExitsExactly`, with a run in
  `DumpLoop.LoopedRouteFails`); replies, and data on routes that lead on, are lost exactly to nodes that have exited
  (`DumpFate.ReplyReaches`, `DumpFate.DataReaches`);
- deleting the second waiting packet drops the first too (`DumpQueue.SendQueue.Delete`, `DumpNode.DeletedKeepsOthers`);
- `hash_inter` with an empty source is not the intersection (`HashTables.InterIsIntersection`);
- a fork or malloc's fallback, begun with an arena's mutex in hand, can always end in a deadlock, and nothing else can
  (`ArenaDeadlock.BrokenGuardCanDeadlock`, `ArenaProgress.CalmNotStuck`);
- for requests near the whole address space `grow_heap` reads the amount as negative and may cut a heap below its top
  (`HeapGrowth.GuardExact`, `HeapGrowth.GrowHeap`);
- the unchecked sums of memalign and iALLOc wrap around (`Aligning.TakePadded`, `Independent.Aggregate`);
- `M_MXFAST` 0 puts the fastbin limit outside the array (`ArenaLookup.SetMxFast`).

The comment in the source says that ties among equal sizes go to the least recently used chunk; a chunk equal to the
smallest of a large bin goes to the end, so among those the newest is taken first. The model follows the code.

The files are one module each. `dafny verify dfyconfig.toml` checks all of them.

## Model

| member | source | states |
|---|---|---|
| `Sessions.Play` | liballocproxy/aproxy_malloc.c:3844-4746 | Whole runs. For every sequence of allocations, zeroed and aligned allocations, frees, reallocs and stores by a client that frees and resizes only blocks it owns, or the null pointer: no integrity check fires, the heap invariant holds after every call, blocks never overlap, and the client's blocks evolve exactly as the calls say. A call gives 0 only if neither the heap nor the answers of the system have a block for it. |
| `Sessions.Perform` | liballocproxy/aproxy_malloc.c:3399-3520 | One client call refines one step of the client's view, given by `Stepped`: blocks, their room, and every word in them. realloc of a null pointer gets a block, realloc for no bytes gives the block back and returns 0, free of a null pointer does nothing. 0 otherwise means that neither the heap nor the system has a block. |
| `PublicCalls.PublicRealloc` | liballocproxy/aproxy_malloc.c:3445-3520 | public_rEALLOc: malloc for a null pointer, free for no bytes, and otherwise the block with its contents; neither the test for a chunk that wraps around the address space nor the assertion on the arena of the result fires. |
| `PublicCalls.PublicFree` | liballocproxy/aproxy_malloc.c:3398-3440 | public_fREe: nothing for a null pointer; otherwise the arena found for the chunk is the one that owns it, and exactly that block goes. |
| `Sessions.Allocate` | liballocproxy/aproxy_malloc.c:3357-3392 | malloc, calloc and memalign add one block with room for the request and leave all words of the other blocks alone. 0 only if neither the heap nor the system has one. |
| `Sessions.BlockStays` | liballocproxy/aproxy_malloc.c:4640-4746 | Over any run, a block keeps every word as long as no call is about that block. |
| `Sessions.BlocksDisjoint` | liballocproxy/aproxy_malloc.c:2473-2546 | Under the heap invariant no two blocks share a word. |
| `Sessions.ResizedBook` | liballocproxy/aproxy_malloc.c:4640-4746 | What realloc promises, on the client's view: the common prefix of old and new block is equal word by word. |
| `State.Settle` | liballocproxy/aproxy_malloc.c:2473-2546 | A local rewrite of a stretch of the heap that is itself consistent keeps the whole invariant: tiling, boundary tags, bins, fastbins, regions, and the contents of every chunk outside. |
| `Arenas.Arena.Main` | liballocproxy/aproxy_malloc.c:2302-2325 | malloc_init_state on zeroed memory: all 127 bins empty, the top is the dummy with size 0, and the invariant holds. |
| `Arenas.Arena.InHeap` | liballocproxy/aproxy_arena.c:852-891 | aproxy_int_new_arena: the arena inside its first heap, one top chunk up to the end of the heap, invariant holds. |
| `Arenas.Arena.EmptyBins` | liballocproxy/aproxy_malloc.c:2311-2315 | After the loop exactly the link words of the bin headers point to the headers themselves. |
| `BinLists.UnlinkKeeps` | liballocproxy/aproxy_malloc.c:2009-2018 | Taking a chunk out by its two links keeps every list a consistent circular double list in the same order. |
| `BinLists.InsertKeeps` | liballocproxy/aproxy_malloc.c:4041-4045 | Linking a chunk between two neighbours keeps every list consistent and places it between them. |
| `Arenas.Arena.Unlink` | liballocproxy/aproxy_malloc.c:2009-2018 | unlink never finds a corrupted list, removes exactly that chunk, and writes link words only. |
| `Arenas.Arena.RemoveLast` | liballocproxy/aproxy_malloc.c:3912-3915 | The chunk at the end of a bin, the one that has been there longest, leaves the list. |
| `Arenas.Arena.LinkUnsorted` | liballocproxy/aproxy_malloc.c:4368-4373 | A chunk enters the unsorted list in front of all others. |
| `FastLists.PushKeeps` | liballocproxy/aproxy_malloc.c:4294-4303 | Pushing keeps every fastbin an acyclic list that ends with 0. |
| `FastLists.PopKeeps` | liballocproxy/aproxy_malloc.c:3885-3892 | Popping takes the chunk pushed last. |
| `Sizes.BinIndexMonotone` | liballocproxy/aproxy_malloc.c:2046-2060 | bin_index is monotone across the borders of its overlapping ranges. |
| `Sizes.HigherBinIsLarger` | liballocproxy/aproxy_malloc.c:2046-2060 | A bin with a larger index holds larger chunks only. |
| `Sizes.SmallBinExact` | liballocproxy/aproxy_malloc.c:2046-2060 | Two chunks in one small bin have the same size. |
| `Sizes.SameBinClose` | liballocproxy/aproxy_malloc.c:2046-2060 | The sizes of one bin differ by less than its spacing: 8, 64, 512, 4096, 32768, 262144 bytes. |
| `Sizes.LargeBinHolds` | liballocproxy/aproxy_malloc.c:2046-2060 | The range of sizes that each large bin holds. |
| `IntMalloc.RequestIs` | liballocproxy/aproxy_malloc.c:1847-1850 | request2size gives the smallest aligned chunk size of at least MINSIZE with room for the bytes and the size word. |
| `IntMalloc.InRangeFits` | liballocproxy/aproxy_malloc.c:1841-1859 | A request that passes the range check neither wraps when padded nor when MINSIZE is added. |
| `IntMalloc.Malloc` | liballocproxy/aproxy_malloc.c:3844-4230 | malloc: at most two passes; which path serves the request: the fastbin and the small bin exactly when they can, then the unsorted list if it has an exact fit or a last remainder to split; result aligned, new, nb <= size < nb + MINSIZE; best fit from the bins; what the last remainder is afterwards; top and system only if no free chunk fits, and the system only if the heap is exhausted; NULL only if the request is out of range, or the heap is exhausted and the answers of the system give no memory for it, and then in the main arena nothing has changed, in an arena of heaps, no region that was there has grown; every other block keeps its contents. |
| `IntMalloc.QuickFit` | liballocproxy/aproxy_malloc.c:3883-3940 | The fastbin of the request is used exactly when it has a chunk; a small bin gives its oldest chunk; a large request leaves the fastbins consolidated. A small bin is used exactly when the fastbin is not and it has a chunk of the size. |
| `IntMalloc.Round` | liballocproxy/aproxy_malloc.c:3955-4229 | One round of the outer loop: another round follows only after a consolidation, so never twice. |
| `Searching.FastPop` | liballocproxy/aproxy_malloc.c:3883-3893 | The head of the fastbin is handed out and the size test never fires. |
| `Searching.SmallHit` | liballocproxy/aproxy_malloc.c:3904-3922 | The exact small bin is empty or gives its last chunk, with the in-use bit set. |
| `Searching.SortUnsorted` | liballocproxy/aproxy_malloc.c:3957-4046 | The loop over the unsorted list ends with an empty list or an exact fit or the split last remainder; no other chunk changes. It takes the exact fit that has waited longest, else splits the last remainder exactly if that came onto the list last, the request is small and more than MINSIZE is left, else nothing; the rest of a split is the new last remainder. |
| `UnsortedList.SortOne` | liballocproxy/aproxy_malloc.c:3958-4045 | One round: memory corruption tests never fire; the last remainder is split only when it is alone on the list. The chunk serves the request exactly if it fits, or is the last remainder, alone, with more than MINSIZE to spare. |
| `UnsortedList.BinOne` | liballocproxy/aproxy_malloc.c:4010-4045 | A chunk is put into its bin in sorted position and the bin is marked in the bitmap. |
| `Sorting.FindPlace` | liballocproxy/aproxy_malloc.c:4015-4039 | The search for the place in a large bin stops before the header, between larger-or-equal and smaller chunks. |
| `Scanning.LargeScan` | liballocproxy/aproxy_malloc.c:4055-4090 | The scan of one large bin finds the smallest chunk that fits, or proves that none of that bin does. Of equal ones it is that nearest the end. |
| `BinWalk.BinScan` | liballocproxy/aproxy_malloc.c:4103-4179 | The walk along the bitmap finds a smallest chunk among all larger bins, clearing stale bits on the way, or proves that no bin holds a chunk that fits. It is the one that has been in its bin longest; for a small request the rest of a split is the last remainder, which otherwise stays. |
| `BinWalk.SeekBit` | liballocproxy/aproxy_malloc.c:4122-4127 | The inner loop stops at a set bit; the bit is never shifted out. |
| `BinWalk.SkipBlock` | liballocproxy/aproxy_malloc.c:4111-4120 | Skipped words of the map have no bit set for any bin still to come. |
| `BinWalk.LastIsBest` | liballocproxy/aproxy_malloc.c:4129-4145 | The last chunk of the first bin that is not empty is a smallest one that fits, over all free chunks. |
| `BitMaps.BitToCome` | liballocproxy/aproxy_malloc.c:4112-4127 | While the bit is not above the map and not in it, a set bit is still to come, below bit 32. |
| `BitMaps.BlockDone` | liballocproxy/aproxy_malloc.c:4111-4112 | A bit above the map has no set bit at or after it. |
| `Passes.SearchBins` | liballocproxy/aproxy_malloc.c:4048-4179 | Best fit: once the unsorted list is empty the chunk taken is a smallest one among all free chunks that fit, and none fits if none is taken. The last remainder is the rest of a chunk split for a small request, and otherwise as before. |
| `Passes.Pass` | liballocproxy/aproxy_malloc.c:3957-4210 | One pass up to use_top: order of the sources, best fit, and the top only when no bin serves. The unsorted list serves the request exactly when it can. |
| `Passes.UseTop` | liballocproxy/aproxy_malloc.c:4197-4210 | The top is split when it keeps MINSIZE, and otherwise untouched. |
| `Carving.SplitOff` | liballocproxy/aproxy_malloc.c:4078-4088 | Overwriting both links of the unsorted list with the rest loses nothing: the list was empty or held only the victim. |
| `Carving.TakeOut` | liballocproxy/aproxy_malloc.c:4070-4076 | Exhausting a chunk: it is in use whole, the next chunk is told so. |
| `Expanding.SysMalloc` | liballocproxy/aproxy_malloc.c:2874-3200 | sYSMALLOc: its assertions hold, the client notices nothing, and the request is served unless the answers of the system give no memory for it: for the main arena no mapping, for others neither room to grow nor a new heap, which stays if the old top is below the threshold for trimming, each unless a size wraps; memory beyond the old end is fresh. |
| `Expanding.ExpandMain` | liballocproxy/aproxy_malloc.c:2928-3165 | Main arena: MORECORE fails, and the mmap region is the whole new top exactly when the system maps it; otherwise nothing changes. |
| `Expanding.MainSizeIs` | liballocproxy/aproxy_malloc.c:2928-2998 | What is asked for: whole pages, at least MMAP_AS_MORECORE_SIZE, and room for the request, MINSIZE and top_pad with less than a page to spare, unless the sum wraps. |
| `Expanding.ExpandHeap` | liballocproxy/aproxy_malloc.c:2879-2926 | Other arenas: the heap grows in place exactly if it has room and the system agrees; else a new heap becomes the top exactly if the system gives one, and heap_trim may delete it again at once only if the old top is large; for every request that does not endanger the heap. |
| `SystemAllocation.ReplaceTop` | liballocproxy/aproxy_malloc.c:2911-2925 | Fenceposts and the free of the rest of the old top keep the invariant for every old top size, and no check of free fires. The new region is the last one and all of it the top, in the main arena always, in others if the old top is too small for its free to trim heaps. |
| `Retiring.RetireGood` | liballocproxy/aproxy_malloc.c:3137-3161 | The heap with both kinds of fencepost, the old top in use in between, satisfies the invariant. |
| `Growing.GrowTop` | liballocproxy/aproxy_arena.c:689-699 | grow_heap for amounts that are not negative: -1 exactly when the rounded amount is a long and exceeds HEAP_MAX_SIZE; on success the top grows by whole pages of fresh memory. 0 exactly when the amount fits the heap and the system agrees. |
| `HeapGrowth.ShrinkHeap` | liballocproxy/aproxy_arena.c:700-713 | grow_heap for negative amounts: -1 exactly when less than a heap_info would remain, success exactly when the system remaps from the start of a page, and every success leaves a heap that breaks the invariant of an arena whose top reaches the end of its heap. |
| `HeapGrowth.GrowHeap` | liballocproxy/aproxy_malloc.c:2885-2896 | What sYSMALLOc asks grow_heap for, as a long: the arena stays valid exactly when not both the request endangers it and the system agrees; then the heap ends below the top and the header of the top is not mapped. |
| `HeapGrowth.GuardExact` | liballocproxy/aproxy_malloc.c:2887 | The caller's guard: no heap layout is endangered by a request of n granules if and only if n plus HEAP_MAX_SIZE is less than the address space and a page. |
| `HeapGrowth.Unendangered` | liballocproxy/aproxy_malloc.c:2887 | Under the guard no valid arena is endangered. |
| `WrappedRequests.ArenaInDanger` | liballocproxy/aproxy_malloc.c:2887 | For every request beyond the guard there is a valid arena that it endangers. |
| `WrappedRequests.HeapEndsBeforeTop` | liballocproxy/aproxy_malloc.c:2885-2896 | With the real constants for 4 and 8 byte words: a new arena, one malloc, and the largest request that passes the range check; when the system agrees the heap ends before its top. |
| `NewHeaps.NewHeap` | liballocproxy/aproxy_arena.c:612-678 | new_heap gives an aligned heap of whole pages, at most HEAP_MAX_SIZE, apart from all regions, with room for the request unless its sum with top_pad wraps around. One is got exactly if the size is not refused and the system gives an area and access. |
| `NewHeaps.AlignedArea` | liballocproxy/aproxy_arena.c:632-669 | Of twice the size the aligned part is kept and the rest unmapped. None is found exactly when the system maps neither the area left over, nor twice the size, nor one that is aligned. |
| `FreeAll.Free` | liballocproxy/aproxy_malloc.c:4251-4440 | free: no printerr for a live chunk; only that block disappears; small chunks go to their fastbin, others merge with both free neighbours; above the threshold no fastbin chunk remains, and in an arena of heaps heap_trim has run: no heap is empty that need not be, what was deleted leaves enough space, and if the system remaps, no whole page beyond top_pad remains; below the threshold no region changes. |
| `IntFree.FreeFast` | liballocproxy/aproxy_malloc.c:4274-4304 | The fastbin path: both tests pass, the chunk is the new head and stays marked in use. |
| `IntFree.FreeNormal` | liballocproxy/aproxy_malloc.c:4310-4391 | The other path: all tests pass, and the chunk with its free neighbours becomes one free chunk or the top. |
| `IntFree.NextPassesTests` | liballocproxy/aproxy_malloc.c:4285-4341 | The size tests on the chunk after a live one never fire, next to fenceposts of both kinds and next to the top. |
| `Freeing.Coalesce` | liballocproxy/aproxy_malloc.c:4343-4391 | Coalescing keeps the invariant and yields the merged size: no free chunk borders another or the top. |
| `Consolidating.Consolidate` | liballocproxy/aproxy_malloc.c:4457-4552 | malloc_consolidate empties every fastbin; the client notices nothing; bins only gain unsorted chunks. |
| `Consolidating.DrainBin` | liballocproxy/aproxy_malloc.c:4499-4545 | Draining one detached list keeps the invariant after every chunk. |
| `HeapTrim.Trim` | liballocproxy/aproxy_arena.c:724-779 | heap_trim: its five assertions hold; only heaps without live chunk go; heaps are deleted exactly as long as enough space remains; a shrunk top has more than pad + MINSIZE and at most a page more. If the system remaps, the top has at most pad + MINSIZE and a page. |
| `HeapTrim.DeleteHeap` | liballocproxy/aproxy_arena.c:740-763 | One round: stop when the space before would be too little, else the free end of the previous heap is the new top. |
| `HeapTrim.ShrinkTop` | liballocproxy/aproxy_arena.c:764-778 | Shrinking gives back whole pages from the end, or nothing; if the system remaps, all that can go. |
| `ReallocAll.Realloc` | liballocproxy/aproxy_malloc.c:4559-4746 | realloc: contents up to the smaller size kept on every path; the block moves only when it cannot grow in place; NULL only if out of range or exhausted, and then nothing changed. |
| `ReallocAll.JoinNew` | liballocproxy/aproxy_malloc.c:4679-4682 | If the new block is the adjacent one both become one block with the old contents. |
| `ReallocAll.MoveNew` | liballocproxy/aproxy_malloc.c:4683-4720 | Allocate, copy, free: the words arrive and no other block changes. |
| `ReallocAll.CopyWords` | liballocproxy/aproxy_malloc.c:4690-4715 | The copy loop copies every word of the old block and writes nothing else. |
| `ReallocAll.ExtendIntoNext` | liballocproxy/aproxy_malloc.c:4659-4665 | Absorbing the free next chunk. |
| `ReallocAll.ExtendIntoTop` | liballocproxy/aproxy_malloc.c:4648-4656 | Growing into the top. |
| `Reallocating.TrimTo` | liballocproxy/aproxy_malloc.c:4724-4742 | The rest of at least MINSIZE is split off and freed; smaller rests stay. |
| `LiveCuts.CutLive` | liballocproxy/aproxy_malloc.c:4734-4741 | A chunk in use cut in two keeps invariant and contents; the second part can be freed. |
| `LiveCuts.AbsorbNext` | liballocproxy/aproxy_malloc.c:4659-4665 | A chunk in use that absorbs the free chunk after it keeps the invariant. |
| `ClientWrites.WriteGood` | liballocproxy/aproxy_malloc.c:4690-4715 | A client that writes within its own block cannot break the heap. |
| `Aligning.Memalign` | liballocproxy/aproxy_malloc.c:4818-4916 | memalign: aligned to the working alignment, room for the request, at most MINSIZE of slop, invariant kept after both frees. |
| `Aligning.TakePadded` | liballocproxy/aproxy_malloc.c:4838-4850 | The first part: for every request, and every working alignment up to half of the address space (of at least 16 granules), the block taken has room for the request exactly when the padded size fits in a size_t. |
| `Aligning.PaddingWraps` | liballocproxy/aproxy_malloc.c:4848 | A padded size that does not fit makes malloc look for a chunk smaller than the request by more than MINSIZE. |
| `WrappedRequests.PaddingWrapsOnce` | liballocproxy/aproxy_malloc.c:4838-4850 | A new arena, alignment 64 and the largest request: malloc serves the wrapped sum, with a block that is too small. |
| `Aligning.AlignmentIs` | liballocproxy/aproxy_malloc.c:4828-4836 | The working alignment is a power of two, at least MINSIZE and the one asked for, less than twice it, and it is the one asked for if that is valid. |
| `Pages.SpotIs` | liballocproxy/aproxy_malloc.c:4856-4872 | The aligned spot for a misaligned chunk is aligned and leaves a leader of at least MINSIZE and less than the alignment and MINSIZE, in granules and, for mapped chunks, in bytes. |
| `Aligning.GiveLeader` | liballocproxy/aproxy_malloc.c:4884-4891 | The leader is freed and the rest is the block. |
| `Clearing.Calloc` | liballocproxy/aproxy_malloc.c:3623-3750 | calloc: every word of the block is zero although only the old top part is cleared; a product that does not fit gives NULL. |
| `Clearing.Product` | liballocproxy/aproxy_malloc.c:3635-3644 | The test rejects exactly the products that do not fit in a size_t. |
| `Clearing.FreshIsZero` | liballocproxy/aproxy_malloc.c:3715-3720 | What lies beyond the old top is fresh and zero, so clearing the old part is enough. |
| `Independent.IAlloc` | liballocproxy/aproxy_malloc.c:5046-5125 | iALLOc: adjacent chunks in use that tile the chunk, each with room for its element; cleared elements are zero; the pointer array is the last chunk. |
| `Independent.Aggregate` | liballocproxy/aproxy_malloc.c:5046-5090 | The first part, for all sizes, with every sum a size_t: the block taken has room for elements and array exactly when what they want together is less than the address space. |
| `Independent.AskedAll` | liballocproxy/aproxy_malloc.c:5057-5079 | The unchecked sums are the true ones when these are less than the address space. |
| `WrappedRequests.ElementsWrapOnce` | liballocproxy/aproxy_malloc.c:5046-5090 | A new arena and two elements of half the address space each: the block taken is too small. |
| `Independent.IAllocNone` | liballocproxy/aproxy_malloc.c:5049-5058 | iALLOc for no elements: nothing with a given array, a chunk of at least MINSIZE without. |
| `Independent.SplitElements` | liballocproxy/aproxy_malloc.c:5109-5125 | The splitting loop tiles the chunk, keeps the heap invariant, and the first header may say PREV_INUSE because fastbins were consolidated. |
| `Accounting.NothingLost` | liballocproxy/aproxy_malloc.c:5230-5283 | Live, fastbin and binned chunks, top and markers add up exactly to the memory of all regions. |
| `MallinfoReport.Report` | liballocproxy/aproxy_malloc.c:5230-5283 | mallinfo: uordblks + fordblks is the memory from the system, and uordblks is live chunks plus markers and headers; counts are the numbers of free chunks. |
| `MallinfoReport.InUse` | liballocproxy/aproxy_malloc.c:5274-5276 | System memory minus what is available is live memory plus markers and headers. |
| `ArenaLookup.FindsOwner` | liballocproxy/aproxy_arena.c:122-126 | arena_for_chunk, by the heap's address and its ar_ptr field, returns the owning arena for every live chunk of every valid arena. |
| `ArenaLookup.SetMxFast` | liballocproxy/aproxy_malloc.c:5374-5383 | mallopt(M_MXFAST) with a value in range sets the limit once the fastbins are empty, and fails otherwise; the arena is valid after it exactly when the value is not 0. |
| `ArenaLookup.MaxFastInRange` | liballocproxy/aproxy_malloc.c:2208-2211 | The fastbin index of the limit stays inside the array and covers MINSIZE exactly when the value is not 0. |
| `MappedChunks.MappedSizeIs` | liballocproxy/aproxy_malloc.c:2810-2813 | The size test rejects exactly the sums that wrap; other mappings are whole pages with room for nb and one more word. |
| `MappedChunks.Mapper.Map` | liballocproxy/aproxy_malloc.c:2797-2858 | The mmap branch: when it is taken, the zeroed mapping with its head, and the two counters. |
| `MappedChunks.Mapper.AlignWithin` | liballocproxy/aproxy_malloc.c:4877-4882 | memalign only moves the start: prev_size and size still span the mapping. |
| `MappedChunks.Mapper.Unmap` | liballocproxy/aproxy_malloc.c:3277-3306 | munmap_chunk: its assertions hold and exactly the whole mapping goes. |
| `MappedChunks.Mapper.ThereAndBack` | liballocproxy/aproxy_malloc.c:2797-2858 | Map, align, unmap restores memory and counters. |
| `ArenaRing.StepKeeps` | liballocproxy/aproxy_arena.c:781-849 | Every step of any thread in arena_get, arena_get2 or the fork handlers keeps the ring invariant. |
| `ArenaRing.OneCycle` | liballocproxy/aproxy_arena.c:781-849 | In every reachable state the links form one cycle through main_arena and every published arena; remembered and returned arenas are on it. |
| `ArenaRing.WrittenByHolder` | liballocproxy/aproxy_arena.c:835-843 | Links change only in the hands of the list_lock holder, and of the published arenas only that of main_arena. |
| `ArenaRing.ComesBackLocked` | liballocproxy/aproxy_arena.c:803-849 | arena_get2 returns with the arena locked and list_lock released on every path, and never follows a NULL link. The arena it returns is the one the thread asks for first from then on. |
| `ArenaRing.ScanEnds` | liballocproxy/aproxy_arena.c:802-813 | One scan tries at most as many mutexes as the ring has arenas, even while the ring grows. |
| `ArenaSearch.TriesAll` | liballocproxy/aproxy_arena.c:802-829 | A thread that asks for list_lock, or comes to make a new arena, has found the mutex taken of every arena that was in the ring when its scan began, but for the one it had tried before, in every run and while the ring grows. |
| `ArenaSearch.OneWayOpen` | liballocproxy/aproxy_arena.c:105-119 | A thread takes the arena it remembers if its mutex is free, searches on from there if it is taken, and from main_arena if it remembers none. |
| `ArenaSearch.SecondRound` | liballocproxy/aproxy_arena.c:815-829 | The ring is searched for a second time exactly when list_lock was taken. |
| `ArenaRing.AloneAfterLockAll` | liballocproxy/aproxy_arena.c:237-257 | After ptmalloc_lock_all the forking thread holds every arena's mutex, and no step of another thread changes a mutex or a link. |
| `ArenaRing.UnlockAllReleases` | liballocproxy/aproxy_arena.c:259-275 | When ptmalloc_unlock_all gives back list_lock it holds no arena mutex. |
| `ArenaProgress.NeverForEver` | liballocproxy/aproxy_arena.c:237-257 | No deadlock under the guard: in every run in which no thread begins a fork or the search for an arena while it keeps an arena's mutex, each thread that waits for list_lock or in ptmalloc_lock_all has a continuation, under the same guard, in which it moves. |
| `ArenaProgress.KeeperBetweenCalls` | liballocproxy/aproxy_arena.c:237-257 | In such a run the keeper of the mutex a fork waits for is always between two calls. |
| `ArenaProgress.CalmNotStuck` | liballocproxy/aproxy_arena.c:237-257 | In such a run the deadlock state is never reached, for any arena and any threads. |
| `ArenaProgress.StuckForEver` | liballocproxy/aproxy_arena.c:237-257 | The deadlock state, for any arena: a fork keeps list_lock and waits for a mutex whose keeper waits for list_lock or is the forking thread itself. In every continuation it stays, and no thread that waits for list_lock ever moves again. |
| `ArenaProgress.ForkNeverReturns` | liballocproxy/aproxy_arena.c:237-257 | A thread that begins a fork while it keeps a published arena's mutex never comes out of ptmalloc_lock_all, whatever the others do. |
| `ArenaDeadlock.CanDeadlock` | liballocproxy/aproxy_arena.c:803-829 | From every reachable state in which a thread in the search for an arena, in malloc's fallback or at the start of a fork, is on its way to list_lock while it keeps an arena's mutex, some continuation ends in the deadlock state. |
| `ArenaDeadlock.BrokenGuardCanDeadlock` | liballocproxy/aproxy_malloc.c:3377-3381 | The guard is exact: after any step that breaks it, in any run, some continuation ends in the deadlock state. |
| `ArenaProgress.MallocAgainstFork` | liballocproxy/aproxy_malloc.c:3377-3381 | A run after which malloc's fallback and a fork wait for each other for ever, whatever other threads do. |
| `ArenaProgress.ForkAgainstItself` | liballocproxy/aproxy_arena.c:237-257 | A run after which a forking thread waits for itself. |
| `OverrunMarker.RoomForMarker` | liballocproxy/aproxy_hooks.c:126-141 | A chunk got for one byte more than asked has room for the marker, mapped or not. |
| `OverrunMarker.LastByteIs` | liballocproxy/aproxy_hooks.c:126-132 | The last byte that the marker can use is the one before the size word of the next chunk, or the end of the mapping. |
| `OverrunMarker.Mark` | liballocproxy/aproxy_hooks.c:115-141 | mem2mem_check writes a chain that leads to the magic byte and touches no client byte. |
| `HookTests.PassesTests` | liballocproxy/aproxy_hooks.c:155-171 | Every live chunk of the heap passes the tests of mem2chunk_check that come before its walk. |
| `HookTests.MappedPasses` | liballocproxy/aproxy_hooks.c:177-192 | Every chunk that is mapped on its own passes its tests, that on the offset in the page if its start has not been moved. |
| `HookTests.MovedPasses` | liballocproxy/aproxy_hooks.c:183-187 | When memalign has moved the start of a fresh mapping the test on the offset passes too, for every alignment. |
| `OverrunMarker.Unmark` | liballocproxy/aproxy_hooks.c:160-198 | mem2chunk_check's walk, over any bytes, ends where `Walk` says: at the first magic byte it meets, whose bits it flips, or it rejects the pointer at a distance of 0 or one beyond the start, and then nothing changes. |
| `OverrunMarker.WalkIs` | liballocproxy/aproxy_hooks.c:173-176 | Over a chain that the marking has left, the walk accepts. |
| `OverrunMarker.OverrunFound` | liballocproxy/aproxy_hooks.c:173-176 | A client that overwrites the byte behind its data is found out if and only if the walk that goes on through the client's own bytes meets no magic byte; always if the byte is 0 or more than the requested size. |
| `OverrunMarker.FlipsRequested` | liballocproxy/aproxy_hooks.c:173-176 | The byte flipped is the one at the requested size exactly when the magic byte equals no distance met before. |
| `OverrunMarker.RoundTrip` | liballocproxy/aproxy_hooks.c:110-199 | Marking and unmarking accept for every chunk and size. |
| `DumpNode.Node.ReceiveRR` | libdump/recv.c:193-302 | A request is answered, flooded to all neighbours but the sender, or dropped when its id is known. |
| `DumpNode.Node.ReceiveRr` | libdump/recv.c:304-405 | A reply releases waiting data or goes one node back with the own entry rewritten; when the node gives up. |
| `DumpNode.Node.ReceiveData` | libdump/recv.c:407-461 | Data is taken or goes to the neighbour after the last own entry. |
| `DumpNode.Node.Request` | libdump/send.c:140-196 | dump_send queues the data and asks every neighbour with an id of its own. |
| `DumpQueue.SendQueue.Add` | libdump/dump.c:190-216 | dump_add_send_queue puts the packet behind all others. |
| `DumpQueue.SendQueue.Lookup` | libdump/dump.c:219-243 | dump_lookup_send_queue gives the first packet for the destination, NULL exactly if there is none. |
| `DumpQueue.SendQueue.Delete` | libdump/dump.c:246-271 | The loop with prev and tmp over the linked cells, for every queue and packet: the packet goes, and the first one with it if it is the second; a packet that is not queued changes nothing. |
| `DumpNode.DeletedKeepsOthers` | libdump/dump.c:246-271 | Deleting from the send queue keeps the other packets exactly when it is not the second one that goes. |
| `DumpNode.ReleasedWaited` | libdump/recv.c:331-363 | Only packets for the destination found leave the queue. |
| `DumpTables.FloodIs` | libdump/recv.c:254-286 | A flood sends exactly one copy over every link but the one the request came from. |
| `DumpSearch.AnswerSent` | libdump/recv.c:226-241 | A new request at the node it asks for is answered over the link it came by, with its path and one more entry, and nothing else is sent. |
| `DumpSearch.FloodSent` | libdump/recv.c:254-286 | A new request at any other node goes on to every neighbour but the one it came from. |
| `DumpSearch.RouteFound` | libdump/send.c:140-196 | Searches succeed: whenever a node asks for a destination that some way over one of its links leads to, and the run comes to rest without an exit, a reply from the destination has arrived at the node. |
| `DumpWorld.LookupAt` | libdump/dump.c:62-66 | A node finds a neighbour by the address of the neighbour's end of their link. |
| `DumpWorld.ReplyStep` | libdump/recv.c:371-387 | A reply that is not for its receiver goes to the node before on the route with one more entry rewritten. |
| `DumpWorld.NextHop` | libdump/recv.c:431-437 | The next hop lookup of data succeeds exactly when the entry was rewritten or the node uses one address on both sides. |
| `DumpRoute.DataFollowsRoute` | libdump/recv.c:431-456 | Data visits exactly the nodes of the route in order if and only if every entry that was not rewritten fits both sides. |
| `DumpRoute.DistinctRouteFollowed` | libdump/recv.c:431-456 | On a route with distinct nodes data reaches the destination along the route. |
| `DumpNet.DeliverKeeps` | libdump/recv.c:193-461 | Every delivery keeps the network invariant: each packet in flight is on a real route with a path that says so. A node that exits is down from then on. |
| `DumpRuns.RunKeeps` | libdump/recv.c:193-461 | The invariant and the packet counts hold in every state of every run. |
| `DumpRuns.FloodBounded` | libdump/recv.c:203-209 | In every run the requests sent with one id are at most 1 plus the sum over nodes of degree - 1. |
| `DumpRuns.OnlyOnce` | libdump/recv.c:203-209 | A node that knows an id sends nothing for it. |
| `DumpRuns.RequestPath` | libdump/recv.c:215-274 | Along a request's path every node but the originator appears at most once. |
| `DumpRuns.ReplyGoesOn` | libdump/recv.c:371-400 | A reply that arrives at a node it is not for leaves alone, for the node before on the route, with one entry less to rewrite, in every reachable state. |
| `DumpRuns.ReplyWay` | libdump/recv.c:371-400 | The way of every reply in a run: the nodes before it on the route, one after the other, up to the first that is the originator, which is the start of the route when the nodes are distinct. |
| `DumpReplies.ReplyComesHome` | libdump/recv.c:371-400 | Iterating the handler of replies visits r[c-1], r[c-2] and so on, and ends at the first of these that is the originator. |
| `DumpFate.ExitsExactly` | libdump/recv.c:325-348 | The receiver of a reply exits exactly when it is the node that asked, data waits for the reply, and the first entry of the path is left over and does not lead on. |
| `DumpFate.DistinctNeverExits` | libdump/recv.c:325-348 | No node exits on a reply whose route does not meet the originator again. |
| `DumpFate.DownExactly` | libdump/recv.c:340-348 | In every run a node is down exactly when an earlier step made it exit. |
| `DumpFate.ReplyReaches` | libdump/recv.c:325-400 | In every run that comes to rest, a reply that was in flight has been taken by the node that asked if and only if it is not left for a node on its remaining way that has exited. |
| `DumpFate.DataReaches` | libdump/recv.c:407-456 | In every run that comes to rest, data that was in flight has been taken at the end of its route if and only if all entries still to come lead on and it is not left for a node on its remaining way that has exited. |
| `DumpCopies.RunSingle` | libdump/recv.c:193-461 | In every run there is at most one copy of each reply and data packet, in flight or waiting. |
| `DumpQuiet.DeliveryShrinks` | libdump/recv.c:193-461 | Every arrival decreases the measure of requests still to arrive, ways of the replies and data in flight, and data waiting. |
| `DumpQuiet.SettlingEnds` | libdump/recv.c:193-461 | Every run quiesces: the arrivals that can follow a state, when no node asks for a further route, are at most its measure. |
| `DumpQuiet.OnlyRestStops` | libdump/recv.c:193-461 | In a reachable state some packet can arrive exactly when one is in flight for a node that has not exited, so a run can only stop when all that is in flight is for such nodes. |
| `DumpQuiet.ComesToRest` | libdump/recv.c:193-461 | From every reachable state arrivals alone lead to a state in which all that is in flight is for nodes that have exited. |
| `DumpRuns.DataTakenAtEnd` | libdump/recv.c:417-424 | Data is taken exactly at the end of the route that the request recorded. |
| `DumpRuns.RouteOutcome` | libdump/recv.c:325-363 | What a reply brings: the data follows the route exactly when the entries left over fit; none are left over exactly when the originator is not met again. |
| `DumpLoop.LoopedRouteFails` | libdump/send.c:171-192 | A proper network and a run of it in which a request passes its originator again: on the reply to it the originator exits, the data still waits, and the reply with the direct route stays in flight for good. |
| `HashTables.Hash.constructor` | libaspect/libhash.c:24-60 | An empty table refines the empty map. |
| `HashTables.KeySumIs` | libaspect/libhash.c:358-365 | The hash of a key is the sum of its characters, as far as it fits in an unsigned int. |
| `HashTables.HashKey` | libaspect/libhash.c:358-365 | The loop over the characters computes that sum, and the bucket is its remainder. |
| `HashTables.Hash.Get` | libaspect/libhash.c:277-288 | hash_get is lookup; NULL exactly for keys that are not there. |
| `HashTables.Hash.Walk` | libaspect/libhash.c:343-353 | hash_get_ent stops at the entry, at NULL or at an empty head. |
| `HashTables.Hash.Add` | libaspect/libhash.c:180-221 | hash_add is map update; an existing key is replaced and elmnbr unchanged. |
| `HashTables.Hash.Set` | libaspect/libhash.c:317-332 | hash_set is map update; a new key is added. |
| `HashTables.Hash.Del` | libaspect/libhash.c:227-269 | hash_del removes the key, moving the successor into the in-line head; -1 exactly when it was not there. |
| `HashTables.Hash.Keys` | libaspect/libhash.c:375-407 | hash_get_keys writes exactly elmnbr keys, each once, and the terminator; NULL for an empty table. |
| `HashTables.ListingIs` | libaspect/libhash.c:375-407 | The listing has every pair of the map exactly once. |
| `HashTables.Hash.Merge` | libaspect/libhash.c:506-522 | hash_merge adds the pairs whose keys are not there yet and returns the sum of their bucket numbers. |
| `HashTables.Hash.Inter` | libaspect/libhash.c:526-546 | hash_inter drops the keys that the other table lacks, if that is not empty, and returns 0. |
| `HashTables.InterIsIntersection` | libaspect/libhash.c:526-546 | The result is the intersection exactly when the other table is not empty or this one is. |
| `HashTables.Hash.Unmerge` | libaspect/libhash.c:550-566 | hash_unmerge removes the other table's keys and returns 0. |

## Left out

- IntMalloc.Malloc: in an arena of heaps a request passes the guard of `HeapGrowth.GuardExact`; beyond it `HeapGrowth.GrowHeap` says what happens. That a new heap was got does not imply that the request is served, as freeing the old top may delete that heap again. Consolidation and initialisation on the very first call are left out.
- Sessions.Play: the blocks are those of one arena; blocks that are mapped on their own are in `MappedChunks`, whose memory is in bytes and not in words with their meaning, so the two are not joined in one run. Requests are those of `Sessions.Perform`.
- Sessions.Perform: requests pass the guard of `HeapGrowth.GuardExact` in an arena of heaps, and the padded size of memalign fits in a size_t, the exact conditions of `HeapGrowth.GrowHeap` and `Aligning.TakePadded`.
- Sessions.Allocate: as `Sessions.Perform`. The choice of an arena, and the second try in another one when the first has nothing, are left out.
- IntMalloc.Round: as `IntMalloc.Malloc`.
- Expanding.SysMalloc: the mmap branch for large requests is in `MappedChunks` and not joined with the arena, so a request here is one that is not mapped on its own; the contiguous branches that need a working sbrk cannot be reached.
- Aligning.Memalign: the padded request fits in a size_t; beyond that `Aligning.TakePadded` says that the block is too small, which the code does not test. For an alignment above half of the address space that is no power of two the loop of the code does not end.
- Independent.IAlloc: what the elements and the array want together is less than the address space; beyond that `Independent.Aggregate` says that the block is too small, which the code does not test. valloc and pvalloc are memalign with the page size.
- ArenaLookup.SetMxFast: the other mallopt parameters are plain assignments.
- ReallocAll.Realloc: mapped blocks (mremap, or copy and unmap) are left out; in an arena of heaps the request passes the guard of `HeapGrowth.GuardExact`.
- Clearing.Calloc: in an arena of heaps the product passes the guard of `HeapGrowth.GuardExact`. Blocks that are mapped on their own are zero by `MappedChunks.Mapper.Map`.
- ArenaRing.OneCycle: memory is sequentially consistent, a thread does not enter malloc again from inside the creation of an arena, and the child's `ptmalloc_unlock_all2` and the hook switching of the fork handlers are left out.
- MappedChunks.Mapper.Map: mappings are page aligned, so the correction for a misaligned start never applies; the maxima kept for statistics are left out.
- OverrunMarker.Unmark: the walk only; the tests before it are in `HookTests`.
- DumpNode.Node.ReceiveRr: a reply whose path has one entry, at the node it is for, is excluded: the code reads past the path.
- DumpNode.Node.ReceiveData: the scan starts at the last entry; the code starts one past the end of the path.
- DumpRuns.FloodBounded: expiry of known ids, sockets, and connecting or losing neighbours are left out. Packets are neither lost nor doubled on a link; what is sent to a node that has exited does not arrive, and what its neighbours do when they notice is left out.
- HashTables.Hash.constructor: the entry in the table of all tables and the checks of the name and type of elements are left out.
- HashTables.Hash.Merge: keys are sequences of characters with non-negative codes, data are non-NULL, and the two tables share no entries.
- HashTables.Hash.Add: a size of 0, NULL keys and failing allocations are left out.
- Word contents: the bytes of a word are not modelled one by one; a client stores whole words, and requests sizes in bytes.
- top_pad and trim sizes are whole granules.
- malloc_stats, malloc_trim, the environment, the starter hooks and `public_gET_STATe`/`public_sET_STATe` are left out: mostly field copies.
- The DUMP packet framing, the shells, libedfmt and libelfsh are left out.
