# elco-os: the kernel's heap, tasks, pages and memory map in Dafny

This project models four parts of the elco-os kernel and proves what they promise. Where the code does not keep
a promise, the project gives an input and the exact condition under which it does.

**The allocator** (`lib/libk/src/kstdlib/malloc_free`): kmalloc, krealloc and kfree over memory as words: chunk headers,
footers, ring and tree links and bin indices are the words at their addresses. `KmState` is the allocator's state,
updated in place; its ghost fields say which chunks there are (`chunks`), which are on a free list (`own`), the rings
of equal sizes (`ring`) and the tree of the large sizes (`shape`). `HeapOps.Valid` ties them to the words. `Trie` is the
reference definition of a bitwise tree, `FreeLists` of rings and of all links, `Chunks` of the tiling of the heap. The
allocator's `pager` is the second part of the model: growing and shrinking call it.

**The pager** (`system/kernel/memory.c`): physical memory is a map from addresses to words. `PagerOps.Pager` keeps the
stack of free frames, the page directory and the page tables in it; the ghost fields `stack`, `tables` and `entries`
say what they mean. The stack is made of free frames itself: some of the frames on it are the pages that note the others.
`PagerViews` says on values what moving the heap's end does to pages, tables and the order of the free frames.

**The tasks** (`system/kernel/task.c`, `clock.c`, `message.c`, `main.c`): `TaskModel` is a state machine whose steps are
clock ticks and kernel calls of the running task, each followed by scheduling, the switch and the delivery of a message.
`Kernel.Tasks` is the same with the links that the kernel threads through the task records; each of its methods is
proved to do to the sequences what the state machine does. `TaskInv`, `TaskRuns`, `TaskSlices` and `TaskOrder` prove properties of the machine, and
`KernelRun` carries them over to runs of the kernel from boot on: the linked structures end where the machine's run ends.

**The memory map** (`system/kernel/main.c`, `memory.c`): from the boot loader's entries, which may overlap in any way, to
sorted regions (`BootMap`, against the definition `TypeAt` of an address's type in `MemoryMap`, with the sweep's effect
described in `Sweep`), from there to the frames the pager starts with (`FreeFrames`, `MemoryInit`), and with `SystemRun` to
any run of the allocator on top.

Integers are unbounded and 32-bit wrap-around is written out where the code can meet it. Methods that stand for a C
function carry its name in their comment.

## Findings

Properties that one would expect and that the code does not have, each with the condition under which it does.

| expected | what happens | condition |
|---|---|---|
| kmalloc_tree_get_best_fit returns the least size that fits | it may leave its path for a right subtree and forget a smaller chunk it has passed: on a heap with 0x120 and 0x160 in one tree a request of 0x110 gets 0x160 (`TreeExample.LargerFound`) | exactly when not `TreeSearch.Misses`, a test of the tree and the request before the call (`TreeSearch.GetBestFit`) |
| krealloc keeps the heap well formed | try_expand_chunk writes the remainder's header while the chunk behind is still binned; it may fall on a link or on the bin index, and is then followed as a pointer or used as an index: a heap on which a request for 28 bytes does so is in `HeapExamples.GrowingGoesWrong` | exactly when not `Realloc.Strikes` (`Realloc.KRealloc`, `Realloc.EndingOf`); callers can test the words behind the block (`HeapRun.ExpandSafeExact`) |
| krealloc refuses requests that are too large | it does not test for overflow: from 2^32 - 4 up it answers with a block that has no room for the request; the seven sizes below become 0 (`Realloc.OverflowIs`), and then it frees the block and returns it, or writes a free chunk behind a free one when the chunk in front is free (`Realloc.ShrinkToNothing`) | an answer has room for the request exactly when kmalloc's overflow test passes (`Realloc.KRealloc`) |
| chunks and the top chunk fill the heap | split_top drops the rest of the top chunk when it is less than a chunk (`TopExamples.EightBytesDropped`), and krealloc can leave a top chunk of 8 bytes (`TopExamples.EightBytesOfTop`); the test suite's check_heap_integrity accepts the heap before these calls and rejects it afterwards | it rejects exactly these two states (`HeapRun.CheckHeapIntegrity`) |
| a bin holds sizes that share their leading bits | bin 31 takes everything from 12 megabytes up | exactly below 2^24 (`BinIndex.TbinPrefixExact`) |
| there is a bin above a request's own | for bin 31 the bitmap is shifted by its full width, which C leaves undefined | exactly below `REQUEST_LIMIT`, 12 megabytes (`Malloc.RequestBinExact`); kmalloc comes to it exactly when the request is that large and no binned chunk fits (`Malloc.KMalloc`) |
| the heap never shrinks below its start | heap_callback compares the amount with the end's address instead of the size: larger amounts unmap the pages before the heap, give the kernel's frames among them away, and the size wraps around (`PagerOps.Pager.HeapCallback`, `PagerRun.ShrinkTooFar`) | exactly for amounts of at most the size (`HeapPages.ShrinkExact`); the allocator asks for no others (`Top.Sbrk`) |
| get_mmap gives each address its type | an entry of length zero is never closed and lingers (`Sweep.EmptyEntryHarms`); what memory_init then takes is in `PagerRun.StartMemory` | exactly when the empty entries are harmless (`Sweep.FaithfulExact`, `BootMap.GetMmap`, `PagerRun.FreePagesTrue`) |
| memory_init takes only free pages | rounding up wraps around for a free region that starts in the last page: all frames are taken (`FreeFrames.HighRegionTakesAll`) | exactly when there is no such region (`FreeFrames.OnlyFreeExact`, `FreeFrames.NoHighExact`) |
| sleep_ms(ms) sleeps ms ticks | a sleep across the wrap of the tick counter is over at the next tick (`TaskRuns.SleepWraps`) | exactly when the counter plus ms is below 2^32, or the counter is at its last value and wraps with the next tick too (`TaskRuns.SleepExact`) |

## Model

| member | source | states |
|---|---|---|
| SystemRun.Run | system/kernel/memory.c:332-381 | from the boot loader's map on at most 16 megabytes to any run of client requests: each is served as in HeapRun.Run, with the same trace, and in the end the frames are the pages the kernel takes to be free and its own three; it gets there exactly when the map has at most 64 entries below 4 gigabytes and frames for the first heap |
| HeapRun.Run | lib/libk/src/kstdlib/malloc_free/kmalloc.c:20-34 | over every run from kmalloc_init on there is a trace of what happened: each request that a client may make, up to the first on which the allocator goes wrong, has its answer and effect, and the others do nothing. At every moment words, chunks, free lists, bins, victim, top chunk and pager are a well-formed heap and hold all words the client knows; NULL comes exactly when it must; which free chunk a block is made of, how large it is, where freed bytes go and which free chunk is the designated victim then are exactly as Places says; all blocks but the one asked about keep place, size and contents; the heap's end, the pager's pages and the free frames in their order move exactly as grow_top, split_top and shrink_top say, and no frame is lost; a stored word changes that word only |
| HeapRun.Perform | lib/libk/src/kstdlib/malloc_free/krealloc.c:7-71 | one request of any kind goes wrong exactly when GoesWrong says so, answers NULL exactly on AnswersNull, changes blocks, free chunks, victim, heap's end and pager exactly as Changes says, and the client's blocks and known words as a client expects: a new block for kmalloc, one less for kfree, the words that fit moved along for krealloc |
| HeapRun.DecidedByBlocks | lib/libk/src/kstdlib/malloc_free/kmalloc.c:36-113 | which requests are answered by NULL and how an allocation moves the heap's end follows from the blocks in use, the size of the top chunk and the pager alone, however the free chunks are binned |
| HeapLayout.LayoutByBlocks | lib/libk/src/kstdlib/malloc_free/kmalloc_util.c:53-110 | heaps with the same start and the same blocks in use have the same free chunks and the same top chunk |
| HeapRun.BlocksApart | lib/libk/src/kstdlib/malloc_free/kmalloc.h:72-75 | payloads of different blocks are disjoint, aligned and inside the heap |
| HeapRun.BlockMapped | system/kernel/memory.c:549-613 | every byte of every block is on a page the pager has mapped for the heap |
| HeapRun.FreeChunkPlaces | lib/libk/tests/kstdlib/malloc_free/testsuite.c:81-153 | each free chunk is the designated victim or on the one ring of its size, never both; rings hold nothing else and nothing twice; bitmap bits and bin heads agree with the rings |
| HeapRun.CheckHeapIntegrity | lib/libk/tests/kstdlib/malloc_free/testsuite.c:23-71 | the test suite's walk over the headers accepts every valid heap except exactly those with a top chunk of 8 bytes or with 8 bytes dropped behind the last block |
| HeapRun.ExpandSafeExact | lib/libk/src/kstdlib/malloc_free/kmalloc_util.c:112-168 | a test of the words behind a block, which a caller can make, decides whether growing it goes wrong |
| Malloc.KMalloc | lib/libk/src/kstdlib/malloc_free/kmalloc.c:20-34 | NULL exactly when the request overflows, the heap is not set up, or nothing fits and the pager can not add pages; otherwise a new block of at least that size, from the chunk and of the exact size that Allotted says, and all other blocks as they were; the heap grows by the least whole number of pages that suffices; undefined exactly when 12 megabytes or more are asked for and no binned chunk fits |
| Malloc.KmallocIntern | lib/libk/src/kstdlib/malloc_free/kmalloc.c:36-113 | a request of any size fails exactly when no binned chunk, nor the victim, nor the top chunk is large enough and the heap can not grow. Allotted: a binned chunk is used exactly if one serves the request by what is binned and by the victim's size, else the victim if it has room, else the top chunk; the block's size, and the victim that is left, follow; the heap grows only when nothing fits; it shifts by the full width exactly on BeyondBins |
| Malloc.FromSmallBins | lib/libk/src/kstdlib/malloc_free/kmalloc.c:42-67 | below 256 bytes: a binned chunk of exactly that size if there is one, else a small one of 8 bytes more, else exactly if the victim has no room the smallest binned chunk that has; of several the first in its list; the block is the whole chunk if less than 16 bytes (of a tree's chunk 16 or less) would be left, and otherwise the rest becomes the victim |
| Malloc.FromTreeBins | lib/libk/src/kstdlib/malloc_free/kmalloc.c:68-97 | from 256 bytes up: what the search in the request's own tree finds, exactly unless the victim has room and is smaller; if that tree has no room the smallest binned chunk that has, exactly unless the victim has room and is no larger |
| Malloc.FindsSmallest | lib/libk/src/kstdlib/malloc_free/kmalloc.c:70-79 | the search in the request's own tree finds the smallest binned chunk with room, unless it misses it as TreeSearch.GetBestFit says |
| Malloc.AllottedOne | lib/libk/src/kstdlib/malloc_free/kmalloc.c:36-113 | what is binned, the victim and the top chunk leave one possible block only: its place, its size and the victim after it |
| Malloc.ExtensibleExact | lib/libk/src/kstdlib/malloc_free/kmalloc_util.c:246-268 | the heap can grow for a request exactly when the least whole number of pages with which the top chunk suffices is at most 2^31 - 1 bytes and the pager can add it |
| Malloc.BinSearched | lib/libk/src/kstdlib/malloc_free/kmalloc.c:70-79 | when the search in the request's own tree finds nothing, every binned chunk that fits is in a higher bin |
| Malloc.NothingHigher | lib/libk/src/kstdlib/malloc_free/kmalloc.c:79-96 | when moreover the bitmap is zero above the request's bin, no binned chunk fits at all |
| Malloc.SmallBit | lib/libk/src/kstdlib/malloc_free/kmalloc.c:44-58 | a bit of the small bitmap is set exactly when a chunk of that size is binned |
| Malloc.TreeBit | lib/libk/src/kstdlib/malloc_free/kmalloc.c:82-86 | a bit of the tree bitmap is set exactly when some binned large chunk has that bin, and then the bin's head is the root of its tree |
| Malloc.RequestBinExact | lib/libk/src/kstdlib/malloc_free/kmalloc.c:82-84 | the bitmap is shifted by less than its width exactly for requests below 12 megabytes |
| Malloc.Bin31Single | lib/libk/src/kstdlib/malloc_free/kmalloc.c:70-79 | on at most 16 megabytes bin 31 has one chunk at most |
| Malloc.KmallocInit | lib/libk/src/kstdlib/malloc_free/kmalloc_util.c:15-51 | the whole heap is one top chunk, the invariant holds and there is no block; without an address or room nothing happens |
| Realloc.KRealloc | lib/libk/src/kstdlib/malloc_free/krealloc.c:7-71 | it ends in the way EndingOf says before the call; if all is well the block is resized in place or moved with its contents up to the smaller size, and has exactly the size that ResizedTo says; all others are as they were, and NULL comes exactly when the block has to move and there is no room; an answer has room for the request exactly when the request does not overflow; sizes that round to 0 free the block and return it; size 0 frees, NULL allocates, and a pointer to no block calls the abort callback |
| Realloc.TryExpandChunk | lib/libk/src/kstdlib/malloc_free/kmalloc_util.c:112-168 | a block grows in place exactly when the free chunk or top chunk behind it suffices, to exactly the new size if more than 16 free bytes are left, which stay top chunk, victim or binned, and to all of them otherwise; it keeps its contents and the invariant, and goes wrong exactly on HeaderStrikes |
| Realloc.HeaderWriteExact | lib/libk/src/kstdlib/malloc_free/kmalloc_util.c:128-144 | the remainder's header leaves the links in memory as they were exactly when it misses the fields of the chunk that is still binned |
| Realloc.RoundingExact | lib/libk/src/kstdlib/malloc_free/kmalloc.h:78-79 | rounding leaves room for the request exactly when the overflow test of kmalloc passes |
| Realloc.OverflowIs | lib/libk/src/kstdlib/malloc_free/krealloc.c:40-43 | which requests wrap: from 2^32 - 11 up, the first seven to a chunk size of 0, the last four to the smallest chunk |
| Realloc.RoomExact | lib/libk/src/kstdlib/malloc_free/krealloc.c:40-67 | whatever block krealloc answers with, it has room for the request exactly when that does not overflow |
| Realloc.ShrinkToNothing | lib/libk/src/kstdlib/malloc_free/krealloc.c:46-57 | with chunk size 0 the block is freed as by kfree when the chunk in front is in use; otherwise its header is overwritten and two free chunks would touch |
| Realloc.ResizeBlock | lib/libk/src/kstdlib/malloc_free/krealloc.c:40-71 | a block in use to any chunk size: exactly when the header strikes a field, when the bitmap is shifted too far, and when NULL comes. It stays as it is exactly if it has that size or would give back less than 16 bytes in front of a block; a smaller size it gets exactly, and the rest is merged as by kfree; a larger one in place as by TryExpandChunk, and else by a move; a block that gives its end to the top chunk leaves the top chunk right behind it |
| Realloc.MoveBlock | lib/libk/src/kstdlib/malloc_free/krealloc.c:62-67 | allocate, copy, free, in this order: the new block, of the size kmalloc_intern gives, has the old one's contents; the victim is the one after the allocation, or the free chunk that has the old block's bytes if it touched that; NULL exactly when there is no room, and then nothing has changed for any block |
| Spoiled.UnbinSpoiled | lib/libk/src/kstdlib/malloc_free/kmalloc_util.c:330-347 | unbin_chunk on a chunk with one field overwritten by a header: it follows the header as pointer or index, except exactly when the field is prev and the chunk is alone in its ring; then the bins are in order without the chunk |
| HeapExamples.GrowingGoesWrong | lib/libk/src/kstdlib/malloc_free/kmalloc_util.c:112-168 | a well-formed heap with two equal free chunks on which a krealloc from 20 to 28 bytes follows a header as a link |
| Free.KFree | lib/libk/src/kstdlib/malloc_free/kfree.c:16-59 | exactly the block that was freed is gone, every other keeps place, size and contents, and the invariant holds after coalescing on both sides; the victim is unchanged exactly if it does not touch the block, else it is the merged chunk with its size, or gone if the top chunk has that; otherwise the merged chunk is binned with its size; the heap's end moves exactly when the top chunk is behind the block; NULL changes nothing, a pointer to no block calls the abort callback |
| Free.MergeFreeChunks | lib/libk/src/kstdlib/malloc_free/kmalloc_util.c:53-110 | a region that is free but not a chunk joins what is behind it and gets its place: the top chunk, the victim exactly if that was one of the two, and otherwise the bin of its size; the victim changes in no other case |
| Free.FreedVictim | lib/libk/src/kstdlib/malloc_free/kfree.c:16-59 | seen from the block: a victim that ends where the freed block begins, or begins where it ends, becomes the free chunk that has the block's bytes, or is gone if the top chunk has them; any other victim stays, and the bytes are a binned chunk's or the top chunk's |
| TreeBins.Insert | lib/libk/src/kstdlib/malloc_free/kmalloc_tree.c:44-82 | a chunk joins the tree of its bin, at the end of its size's ring or as a node: the words are again the links of a well-formed tree of rings that also has the chunk, and other bins are untouched |
| TreeBins.Remove | lib/libk/src/kstdlib/malloc_free/kmalloc_tree.c:97-150 | whatever its place (in a ring, a head, a leaf, an inner node, a root) the chunk is out and the rest is a well-formed tree: its ring without it, and with its last chunk the node goes, whose place the leaf takes that is reached by going left where there is a left child |
| TreeBins.FindLeaf | lib/libk/src/kstdlib/malloc_free/kmalloc_tree.c:124-131 | the leaf is below the node, and every step on the way to it goes left where there is a left child |
| TreeBins.RemoveSingle | lib/libk/src/kstdlib/malloc_free/kmalloc_tree.c:117-149 | a chunk alone in its ring is taken out right whatever its prev link says |
| TreeSearch.GetBestFit | lib/libk/src/kstdlib/malloc_free/kmalloc_tree.c:167-214 | an answer fits and there is one whenever some chunk of the tree fits; an exact fit is found; it is the least fit exactly when not Misses, and otherwise the least chunk of the subtree the path left for |
| TreeExample.LargerFound | lib/libk/src/kstdlib/malloc_free/kmalloc_tree.c:167-214 | a well-formed heap, word by word, with chunks of 0x120 and 0x160 bytes in one tree, on which the search for 0x110 bytes returns the larger |
| TreeSearch.SearchBeyond | lib/libk/src/kstdlib/malloc_free/kmalloc_tree.c:167-214 | for sizes beyond all chunks the same statements find nothing, although the size need not begin with the bits of its bin |
| TreeSearch.GetSmallest | lib/libk/src/kstdlib/malloc_free/kmalloc_tree.c:230-250 | the least size of a whole tree is found on one path |
| Trie.DepthBound | lib/libk/src/kstdlib/malloc_free/kmalloc_tree.c:60-73 | the walks down never run out of bits |
| BinIndex.TbinMonotone | lib/libk/src/kstdlib/malloc_free/kmalloc_util.h:36-46 | a larger size is never in a lower bin |
| BinIndex.TbinPrefix | lib/libk/src/kstdlib/malloc_free/kmalloc_util.h:36-46 | below 2^24 the bin is the two leading bits |
| BinIndex.TbinPrefixExact | lib/libk/src/kstdlib/malloc_free/kmalloc_util.h:36-46 | and only there |
| BinIndex.TbinOfPrefix | lib/libk/src/kstdlib/malloc_free/kmalloc_util.h:36-46 | sizes with the leading bits of a bin are in it |
| BinIndex.LeftbinIsLowestOccupied | lib/libk/src/kstdlib/malloc_free/kmalloc_util.h:48-52 | the bit trick gives the lowest occupied bin at or above an index |
| BinIndex.RequestToSizeRounds | lib/libk/src/kstdlib/malloc_free/kmalloc.h:78-79 | rounding gives an aligned chunk with room for the request and its header, less than 12 bytes more than asked for unless it is the smallest chunk |
| DlList.Add | lib/libk/src/kstdlib/malloc_free/kmalloc_dllist.c:13-30 | the links in memory are those of the ring with the chunk in front |
| DlList.AddEnd | lib/libk/src/kstdlib/malloc_free/kmalloc_dllist.c:41-52 | the same at the end |
| DlList.RemoveIntern | lib/libk/src/kstdlib/malloc_free/kmalloc_dllist.c:67-89 | the neighbours are linked past the chunk, and the head moves on or becomes NULL |
| DlList.Remove | lib/libk/src/kstdlib/malloc_free/kmalloc_dllist.c:103-124 | the same for the head |
| Bins.BinChunk | lib/libk/src/kstdlib/malloc_free/kmalloc_util.c:310-328 | a free chunk joins exactly the list its size selects, at the front of a small bin or at the end of its ring in a tree, and only link words of binned chunks are written |
| Bins.UnbinChunk | lib/libk/src/kstdlib/malloc_free/kmalloc_util.c:330-347 | the inverse: exactly that chunk leaves its ring, the others stay in their order, bitmaps follow |
| Bins.PopBin | lib/libk/src/kstdlib/malloc_free/kmalloc_util.c:349-386 | a chunk of the size comes out exactly when one is binned, and it is the first of its ring |
| HeapOps.AllocateDv | lib/libk/src/kstdlib/malloc_free/kmalloc_util.c:270-297 | a new block from the victim exactly when it is large enough: all of it if less than 16 bytes would be left, and then there is no victim, else exactly the size asked for, and the rest is the victim |
| HeapOps.ReplaceDv | lib/libk/src/kstdlib/malloc_free/kmalloc_util.c:299-308 | the new victim is the chunk, the old one is binned, blocks are untouched |
| HeapOps.AllocateSbin | lib/libk/src/kstdlib/malloc_free/kmalloc_util.c:374-386 | a new block exactly when a chunk of the bin's size is there: the first of them, whole; the victim stays |
| HeapOps.SplitSbin | lib/libk/src/kstdlib/malloc_free/kmalloc_util.c:349-372 | the same for a block of exactly the size asked for; the remainder is the victim |
| HeapOps.AllocateTchunk | lib/libk/src/kstdlib/malloc_free/kmalloc_util.c:388-417 | a new block from that tree chunk: exactly the size asked for, and the rest is the victim, if more than 16 bytes are left, else the whole chunk, and the victim stays |
| Top.Sbrk | lib/libk/src/kstdlib/malloc_free/kmalloc_util.c:204-268 | every request of the allocator is one the pager handles; the allocator's words are on the physical pages behind the page tables when the pager is called, and those on pages that stay are read back from there; when it is granted the pager's heap has the size the allocator's books are about to have; it is refused exactly when the pager can not grow the heap or it would become smaller than the first one |
| Top.MovePages | system/kernel/memory.c:549-613 | the words at addresses that stay in the heap survive a call of heap_callback because their pages keep their frames and contents |
| Top.GrowTop | lib/libk/src/kstdlib/malloc_free/kmalloc_util.c:246-268 | the top chunk grows by at least what is asked and less than a page more, in whole pages, exactly when the pager can add them; the heap's end and the pager are then exactly Extended, also after a refusal |
| Top.InPagesExact | lib/libk/src/kstdlib/malloc_free/kmalloc_util.c:250 | the rounding gives the one multiple of the page size that is enough and less than a page more |
| Top.ExtendExact | lib/libk/src/kstdlib/malloc_free/kmalloc_util.c:246-268 | the pager can extend the heap for n bytes exactly when that multiple is at most 2^31 - 1 and the pager can add it |
| Top.ShrinkTop | lib/libk/src/kstdlib/malloc_free/kmalloc_util.c:204-245 | the new size exactly: whole pages go, at least a page of top chunk and the initial heap stay, and nothing happens exactly when there is no page to give |
| Top.ShrunkInRange | lib/libk/src/kstdlib/malloc_free/kmalloc_util.c:204-245 | the size aimed at is between the initial and the present one, and less than two pages of top chunk stay unless the initial size is reached |
| Top.SplitTop | lib/libk/src/kstdlib/malloc_free/kmalloc_util.c:170-201 | a new block of exactly the size asked for where the top chunk began, NULL exactly when it is too small and can not grow; the heap grows only then, by the least whole number of pages that suffices; its end is exactly SplitEnd |
| Top.CutTop | lib/libk/src/kstdlib/malloc_free/kmalloc_util.c:181-200 | the top chunk begins behind the block; a rest of less than a chunk drops out of the heap |
| TaskInv.StepKeeps | system/kernel/main.c:347-387 | every step keeps the invariant: each task is in exactly one place (a ready queue, the timer list, waiting to receive, or the sender queue it sends to), timers are sorted, no receiver waits beside a sender it wants, and the highest-priority ready task runs |
| TaskInv.CachedAlways | system/kernel/task.c:191-208 | after any sequence of queue operations the cached choice is what a full scan gives |
| TaskRuns.RunKeeps | system/kernel/main.c:347-387 | the invariant holds over every run |
| TaskRuns.RunAccounts | system/kernel/message.c:8-97 | over every run and for any two tasks, what one sent to the other is what was handed over, in the same order, and then at most what is in flight: nothing is lost, doubled, changed or overtaken |
| TaskRuns.RunAnswered | system/kernel/message.c:49-97 | over every run each task is handed exactly what it asks for: one message for each receive that was not refused, in order, from the sender it named if it named one |
| TaskOrder.RunServed | system/kernel/message.c:49-84 | over every run the message a task is handed, or that is put aside for it while it waits, is the one accepted first of all those that it wants and has not got |
| TaskOrder.SleepersInOrder | system/kernel/clock.c:9-66 | over every run sleeping tasks wake in the order of their expiry and, at equal expiry, in the order in which they went to sleep; those that wake together enter a ready queue in that order |
| TaskRuns.SendAnswer | system/kernel/message.c:8-47 | send answers 0 exactly when the receiver exists, and then the message is accepted |
| TaskOrder.SendExact | system/kernel/message.c:8-47 | a message to a task that waits for one, and named this sender or none, is in its buffer at once, makes it ready, and the sender goes on; any other leaves the sender waiting, last in the receiver's queue, with the message in its own buffer |
| TaskOrder.ReceiveExact | system/kernel/message.c:49-84 | a receive from no task is refused; any other takes the message of the first sender in the queue that is wanted, which gets ready while the others keep their order, and the receiver goes on, or if there is none the receiver waits and is not ready |
| TaskOrder.NobodyMissed | system/kernel/message.c:8-84 | at no time does a task wait to receive while a sender whose message it wants waits in its queue |
| TaskRuns.RunSleeps | system/kernel/clock.c:9-32 | a sleeping task sleeps on as long as fewer ticks pass than it has left, whatever else happens, also when others sleep across the wrap |
| TaskRuns.SleepExact | system/kernel/clock.c:40-66 | over all runs a sleep of ms lasts for ms - 1 ticks and the ms-th makes the task ready, exactly when the counter plus ms is below 2^32 or the counter is at its last value |
| TaskRuns.SleepWraps | system/kernel/clock.c:40-66 | the next tick wakes a task exactly when it sleeps for one tick, or across the wrap with the counter not at its last value |
| TaskRuns.StepDue | system/kernel/clock.c:9-32 | without a wrap no listed timer is due between steps |
| TaskRuns.RunDue | system/kernel/clock.c:9-32 | the same over every run |
| TaskRuns.StepTurn | system/kernel/clock.c:13-19 | while nobody blocks or arrives on the queues down to p, queue p stays as it is and the running task has one tick less for a tick and as many for a call; it goes to the back exactly when it preempts itself, with the ticks it has, and with its last tick, with its quantum again; no other slice changes |
| TaskRuns.RoundRobin | system/kernel/task.c:205-208 | over any run, whatever the calls, in which nobody blocks or arrives there, the i-th task of the highest queue has run after at most i quanta |
| TaskSlices.TickExact | system/kernel/clock.c:9-32 | any tick, exactly: a running task with more than one tick left keeps its place and has one less; with one left it goes to the back of its queue with its quantum again; one that can not be preempted, and the idle task, lose neither place nor ticks; all others keep place and ticks, and tasks that wake come behind those that are ready |
| TaskSlices.PreemptExact | system/kernel/task.c:205-208 | a task that preempts itself goes to the back of its queue with the ticks it has, and nothing else moves |
| TaskSlices.CallsCostNothing | system/kernel/main.c:347-377 | no kernel call changes a tick, a quantum or a priority of any task |
| TaskSlices.SliceExact | system/kernel/clock.c:13-19 | over every run a preemptible task that neither preempts itself nor blocks, while no task gets ready above its queue, runs as long as fewer ticks have passed than it had left, with exactly so many less, and its slice ends exactly with the last of them: it goes to the back with its quantum and the next task of the queue runs, unless the tick wakes one above |
| TaskSlices.NotPreempted | system/kernel/clock.c:13-19 | over every run such a task that can not be preempted runs however many ticks pass |
| Kernel.Tasks.EnqueueTask | system/kernel/task.c:158-169 | head, tail and next links are those of the queue with the task at its end |
| Kernel.Tasks.DequeueTask | system/kernel/task.c:170-189 | they are those of the queue without the task; nothing happens if it is not there |
| Kernel.Tasks.Scheduler | system/kernel/task.c:191-202 | the choice is the head of the first queue that is not empty, or the idle task |
| Kernel.Tasks.TimerCallback | system/kernel/clock.c:9-32 | the linked timer list and ready queues follow the state machine's tick; between steps the running task pays for it exactly as TaskSlices.TickExact says |
| Kernel.Tasks.SleepMs | system/kernel/clock.c:40-66 | the task is linked into the sorted timer list behind those that expire no later |
| Kernel.Tasks.MessageSend | system/kernel/message.c:8-47 | the linked sender queues follow the state machine's send, with its answer |
| Kernel.Tasks.MessageReceive | system/kernel/message.c:49-84 | the same for receive: the first sender that is wanted is unlinked, or the task waits |
| Kernel.Tasks.AfterContextSwitch | system/kernel/main.c:379-387 | a message that waits for the task is delivered once |
| Kernel.Tasks.HandleKernelCall | system/kernel/main.c:347-377 | the answer of each call is in the caller's record |
| Kernel.Tasks.StepKernel | system/kernel/main.c:347-387 | the linked structures refine one step of the state machine |
| Kernel.Tasks.CreateKernelTask | system/kernel/task.c:66-132 | a task in the first free slot, or none exactly when priority, slots or stack fail |
| KernelRun.Boot | system/kernel/main.c:295-345 | the state after creating and starting the tasks exactly; the invariant holds with no message and no timer |
| KernelRun.BootedTasks | system/kernel/task.c:66-132 | after boot every task is as created, with a quantum of ten ticks and all of them left, each ready queue has the tasks of its priority in the order of their creation, nobody sleeps or waits, and the first task of the highest priority runs, or the idle task |
| KernelRun.RunKernel | system/kernel/main.c:295-387 | boot and any events: the linked structures end in the state that the task machine's run over the events leads to from the booted one, events of the idle task left out; invariant, message accounts in both directions, first come first served at each step, and nothing is due as long as the counter can not have wrapped |
| PagerOps.Pager.constructor | system/kernel/boot.S:41-80 | the tables the boot code writes are a valid state with no free frame and no heap |
| PagerOps.Pager.StackPush | system/kernel/memory.c:265-284 | exactly that frame is on top of the free frames, as a page of the stack or noted in one; the stack is never full |
| PagerOps.Pager.StackPop | system/kernel/memory.c:299-319 | last in, first out; it fails exactly when no frame is left, and the frame belongs to nobody |
| PagerOps.Pager.SetPageTable | system/kernel/memory.c:152-176 | a cleared table is in the directory, all else is as it was |
| PagerOps.Pager.MemoryAllocatePage | system/kernel/memory.c:400-431 | it succeeds exactly when the page is not mapped and there are frames for it and a missing table; on failure nothing has changed; mapped pages keep their contents and frames are conserved |
| PagerOps.Pager.MemoryFreePage | system/kernel/memory.c:450-465 | it succeeds exactly when the page has an entry; then exactly that page is gone and its frame is the last free one, also for a page of the boot image |
| PagerOps.Pager.HeapCallback | system/kernel/memory.c:549-613 | the heap grows exactly when all its new pages can be mapped, shrinks exactly when enough remains or the amount is larger than the heap, a failed growth is undone, the pages that stay keep their contents and no frame is lost; tables, entries and the free frames in their order are exactly Moved in every case; what an amount larger than the heap does to pages, frames and size |
| PagerViews.MovedKeeps | system/kernel/memory.c:549-613 | moving the heap's end, granted or refused, keeps every frame accounted for exactly once and the heap mapped to frames of its own; when it is granted; a refusal leaves all entries as they were |
| HeapPages.CanGrowExact | system/kernel/memory.c:588-608 | mapping page by page succeeds exactly when no page is in the way and the frames suffice for all pages and all missing tables |
| HeapPages.GrowExact | system/kernel/memory.c:580-586 | the two tests together see every overflow |
| HeapPages.ShrinkExact | system/kernel/memory.c:561-569 | the tests let through exactly the good amounts and those between the heap's size and its end's address |
| HeapPages.HoldingsCount | system/kernel/memory.c:332-381 | free frames, mapped frames, tables and the directory add up: no frame is counted twice |
| Paging.NeverFull | system/kernel/memory.c:265-284 | all frames of the address space together do not fill the stack |
| MemoryMap.CoversExact | system/kernel/main.c:444-470 | cutting entries off at 32 bits leaves the addresses below as they are |
| BootMap.Collect | system/kernel/main.c:444-470 | the changes are the starts and ends of all entries, or there are more than 64 |
| BootMap.SortChanges | system/kernel/main.c:478-496 | the exchanges end with a sorted permutation |
| BootMap.SweepChanges | system/kernel/main.c:499-546 | the regions are what the sweep over the sorted changes means, and the map is never truncated |
| BootMap.GetMmap | system/kernel/main.c:420-547 | sorted, disjoint, merged regions that give each address the highest type of its entries exactly when the empty entries are harmless, and in any case the type that empty entries without end would give; more than 64 entries stop the kernel |
| Sweep.FaithfulExact | system/kernel/main.c:499-546 | the exact condition on the entries |
| Sweep.NoneEmpty | system/kernel/main.c:499-546 | without typed empty entries it always holds |
| Sweep.EmptyEntryHarms | system/kernel/main.c:499-546 | a map for which it does not |
| FreeFrames.FramesFreeExact | system/kernel/memory.c:344-356 | the frames taken are exactly the pages of which every byte is free |
| FreeFrames.FramesFreeOnce | system/kernel/memory.c:344-356 | none is taken twice |
| FreeFrames.OnlyFreeExact | system/kernel/memory.c:344-356 | only free pages are taken exactly when no free region starts in the last page |
| FreeFrames.NoHighExact | system/kernel/memory.c:344-356 | the same condition on the types that the kernel takes addresses to have |
| FreeFrames.HighRegionTakesAll | system/kernel/memory.c:344-356 | otherwise every frame is taken |
| MemoryInit.PushFree | system/kernel/memory.c:344-356 | the stack then holds exactly these frames |
| MemoryInit.Start | system/kernel/memory.c:332-381 | the heap's first pages are mapped exactly when the frames suffice, the identity mapping is gone, and the kernel's pages stay |
| PagerRun.TakenExact | system/kernel/memory.c:344-356 | the frames taken are the pages all of whose bytes the kernel takes to be free |
| PagerRun.FreePagesTrue | system/kernel/main.c:499-546 | when the empty entries are harmless these are the pages that are free by the boot loader's entries |
| PagerRun.StartMemory | system/kernel/memory.c:332-381 | from any boot loader's map without a free region that starts in the last page to a running pager that owns exactly the pages that the kernel takes to be free and its own three frames; the exact conditions for too many entries and too few frames |
| PagerRun.Perform | system/kernel/memory.c:400-613 | the answer and effect of any request exactly: when a page is mapped or released, which frames are free then and in which order, which tables and entries there are, when the heap moves and to what; the contents of the pages that stay are kept and the frames conserved |
| PagerRun.Run | system/kernel/memory.c:400-613 | over any run each proper request has exactly its answer and effect and the others do nothing; at each point no frame is used twice, the heap is mapped, and free frames, tables and mapped frames together are the same set as at the start |
| PagerRun.ShrinkTooFar | system/kernel/memory.c:561-577 | an amount larger than the heap by a page or more is granted: the page before the heap is gone, the kernel's frame in it is free for others, and the size has wrapped around |

## Left out

- Free.KFree: a pointer that is not to the start of a block is modelled only when the word in front of it is not that of a block in use; the code would take payload words for a header (`Pointer`).
- Realloc.KRealloc: pointers as for Free.KFree; what happens after it has gone wrong (Struck, Shifted, Torn) is described only up to there.
- Malloc.KMalloc: when the bitmap is shifted by its full width, which C leaves undefined, it is said that this happens and not what follows.
- Malloc.KmallocInit: the heap starts at a page and has whole pages, as memory_init has it.
- HeapRun.Run: on at most 16 megabytes of frames, because bin 31 breaks above (`BinIndex.TbinPrefixExact`); requests with pointers the client does not hold, or stores outside its blocks, are not made; the run ends before the first request on which the allocator goes wrong; the order of chunks of the same size in their list and the shapes of the trees are left to `Bins.BinChunk`, `Bins.UnbinChunk` and `TreeBins`.
- TreeSearch.SearchBeyond: in trees of one chunk, as bin 31 is on 16 megabytes (`Malloc.Bin31Single`).
- HeapExamples.GrowingGoesWrong: this and the other examples take a pager with the smallest heap behind a kernel that ends at 0x110000, which `PagerRun.StartMemory` makes.
- Top.GrowTop: increments within a page of 2^32, for which the rounding wraps; kmalloc asks for less than 12 megabytes there. The same for Top.SplitTop.
- Top.Sbrk: the allocator's words are a map of their own between calls of the pager; they are stored through the page tables before such a call and read back after it.
- Top.CutTop: the dropped bytes stay inside the heap and unused; that they come back when their neighbours are freed is not claimed.
- TaskRuns.RoundRobin: the tasks of the queue are preemptible, and their quanta at most q.
- TaskRuns.SleepExact: sleeps of at most 2147482 milliseconds, above which 1000 * ms + 999 overflows an int; the idle task does not sleep.
- Kernel.Tasks.CreateKernelTask: whether a stack could be allocated is a parameter; the stack and its first context are not modelled.
- Kernel.Tasks.SetPreemptible: only before the tasks run, as the kernel uses it.
- KernelRun.RunKernel: ticks and calls are atomic steps, as interrupts are off in the kernel; the idle task makes no calls; message pointers are numbers and messages 64 bytes.
- PagerOps.Pager.MemoryFreePage: a page of the boot image is freed only when no page directory or page table is in it; the code would free it too.
- PagerOps.Pager.HeapCallback: for an amount larger than the heap, no page directory or page table is in the boot pages that go, for the same reason; reductions the callers keep to are `PagerRun.Proper`.
- PagerRun.StartMemory: without a free region that starts in the last page, where every frame is taken, the kernel's own too (`FreeFrames.HighRegionTakesAll`), and with the kernel below 4 megabytes.
- BootMap.Collect: the entries are a sequence; the code steps by each entry's own size field. Changes are exchanged as values instead of pointers to them.
- The boot loader's flag for a missing map, printing, set_page_directory and the copy of the map for user tasks.
- The origin of a message about to be delivered is kept in the model's records; the kernel does not store it.
- Page directory attributes other than present, writable, user and large, and the TLB.
- Drivers, the interrupt and descriptor tables, the formatted output and string functions, and the build.
