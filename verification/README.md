# Turf verification

A Dafny model of the parts of Turf where a wrong step is hard to see: the heap
(a dlmalloc adapted to run on a zeroed `malloc_state`), the fork-join
dispatcher and its spinning gate, the in-memory trace log, and the number
generators. Each module models one component and proves what the component is
for, on every input, in every run.

`dafny verify dfyconfig.toml` checks the whole project.

## The heap

The heap is the class `Heap.MallocState`. Its memory is a map from byte
addresses to 64-bit words, and everything that the C++ code keeps in chunk
headers, boundary tags, list links, tree links and segment records is read from
and written to that memory, word by word, in the order of the source. Beside
it stand three ghost fields that no real value is computed from:

- `ck`, the layout: where each chunk begins, its size, whether it is live, free,
  the top, a segment record or a fencepost, and the size of the free chunk before
  it, if there is one;
- `segs`, the segments, newest first;
- `bins`, which chunks are in which small bin, and the tries of the tree bins.

`Valid()` ties the words to the three. It says that the chunks tile each
segment; that every size, in-use bit, previous-in-use bit and foot agrees
with the layout; that no two free chunks touch; that each free chunk is in its
own bin or is the designated victim, and nothing else is; that each small bin is
a doubly linked ring, each tree bin a trie keyed by the bits of the size with one
ring of equal sizes at each node; that a bin-map bit is set exactly if its bin is
not empty; and that the list of segments is linked as it should be. Every method
requires it and ensures it, and every `ABORT` or usage-error branch is a
proved `assert false`.

The answers of the system are parameters, and are arbitrary: `mp` is what `mmap`
returns (`CMFAIL`, or a region outside the segments held), and `unmaps` says of
each address whether `munmap` succeeds there.

What is proved from there up:

- exact best fit of the tree walk, which chunk each request goes to, and exactly when each operation
  gives null;
- exactly when memory goes back to the system, and how much;
- blocks are aligned and disjoint, keep their contents through every operation on
  others, and may be overwritten by their owner, the last word included;
- the layout is determined by the live blocks, so that the order of frees, and
  merging before freeing, make no difference;
- the debug checker, modelled line by line with its recursion over trees, never
  fails; and a replay of any sequence of operations from a zeroed state meets it
  after every one, and finds in each block what was last written there.

## The other components

`SpinKicker` and `JobDispatcher` are a state machine: each worker and the main
thread takes one atomic step at a time, in any interleaving, with any number of
threads and any sequence of commands. `TraceMemLog` is one too, for any
number of threads that call `log` at once; its iterator and its two dumps are
methods. `UniqueSequence`, `Random` and `TimeWaster` are classes with the source's
fields, beside the functions that specify them. That 4294967291 and 65521 are
prime, on which two of them rest, is proved in `Primality`, by Pocklington's
criterion and by trial division.

## Findings

Three promises of the source do not hold for all arguments. The code is modelled as
it is; the exact condition is proved, and an input outside it is given.

- `kickMulti` with fewer targets than there are threads calls its action on no
  worker and not even on thread 0: it stores the action and then lowers the number
  of threads, and retiring threads resets the action
  (turf/extra/JobDispatcher.h:161-166, 104). `JobDispatcher.EveryKick` proves that a
  returning call has run its action once on each thread it is for if and only if
  it is not such a `kickMulti`; `JobDispatcher.KickMultiCallsNothing` reaches the
  failure from the initial state.
- An alignment above 2^63 makes `internal_memalign` loop forever: the doubling that
  rounds it up to a power of two arrives at zero (turf/impl/Heap_DL.cpp:2930-2934).
  `Aligned.DoublingReaches` proves that some doubling is large enough if and only if
  the alignment is at most 2^63. `InternalMemalign` requires that.
- The GCC form of `compute_tree_index` loses the bits of a size above the fortieth
  (turf/impl/Heap_DL.cpp:985), so that a chunk of 2^40 bytes would be binned among the
  smallest, against the size bracket that `do_check_tree` asserts. `Bits.GccIs` proves
  that it gives the index of the other forms if and only if the size is below 2^40 or
  the bits lost make no difference. The heap is modelled with the `size_t` forms.

Two more things are worth knowing. `has_segment_link` never finds a link when
`sys_trim` asks it, because the record of an older segment is never inside the newest
one; so the top is never pinned (`SystemSizes.NoLinks`). And where the code that
keeps a running count of the bytes in use
adds to it after a malloc that gave null (turf/impl/Heap_DL.cpp:2704-2708), it reads
a head just below address zero; the model adds only on success.

## Model

| member | source | states |
|---|---|---|
| `Bits.SizeBracket` | turf/impl/Heap_DL.cpp:1054-1057 | each tree bin but the last holds exactly the sizes from its `minsize_for_tree_index` up to the next bin's |
| `Bits.PortableIs` | turf/impl/Heap_DL.cpp:1026-1042 | the portable index computation, three borrow tests and shifts, finds the highest set bit for every size |
| `Bits.GccIs` | turf/impl/Heap_DL.cpp:983-994 | the GCC form agrees with it if and only if the size is below 2^40 or its lost bits do not show |
| `Heap.MallocState.constructor` | turf/impl/Heap_DL.h:125-130 | a zeroed state is a valid heap without segments or blocks |
| `Heap.MallocState.InsertSmallChunk` | turf/impl/Heap_DL.cpp:1627-1643 | the chunk joins the front of its own ring and nothing else of the bins changes; only words inside free chunks and bin headers are written |
| `Heap.MallocState.UnlinkSmallChunk` | turf/impl/Heap_DL.cpp:1646-1669 | exactly this chunk leaves the bins, the bin-map bit stays right, and neither abort branch is reached |
| `Heap.MallocState.UnlinkFirstSmallChunk` | turf/impl/Heap_DL.cpp:1672-1688 | as above, for the first chunk of a marked bin |
| `Heap.MallocState.InsertLargeChunk` | turf/impl/Heap_DL.cpp:1705-1770 | the walk ends, the trie with the chunk added is well formed again, exactly this chunk joins the bins, and no abort branch is reached |
| `Heap.MallocState.UnlinkLargeChunk` | turf/impl/Heap_DL.cpp:1773-1842 | exactly this chunk leaves the bins and the trie stays well formed, whether a ring mate, the deepest leaf found or nothing takes its place |
| `Heap.MallocState.FindBestLarge` | turf/impl/Heap_DL.cpp:2470-2517 | the two walks and the next marked bin find a smallest tree chunk that fits, with the remainder computed in wrapping words, or there is none |
| `Heap.MallocState.TmallocLarge` | turf/impl/Heap_DL.cpp:2470-2538 | null exactly if no binned chunk fits better than the designated victim; otherwise a smallest binned chunk that fits was used, the block is its front, and what is left, if it is enough for a chunk, is binned |
| `Heap.MallocState.TmallocSmall` | turf/impl/Heap_DL.cpp:2541-2576 | never null: a smallest of all tree chunks was used, found by leftmost children alone; what is left, if it is enough for a chunk, is the new designated victim |
| `Grants.RequestFits` | turf/impl/Heap_DL.cpp:2602-2661 | the chunk size looked for is the least multiple of 16 that has room for the request and the head, or the minimum; small exactly for small requests, and out of reach for those out of range |
| `Heap.MallocState.MallocSmall` | turf/impl/Heap_DL.cpp:2602-2654 | a small request goes to the first chunk in the bin of just its size; or else, the designated victim not being large enough, to a smallest chunk that fits; or is left to the victim, and then there was none of just its size |
| `Heap.MallocState.MallocLarge` | turf/impl/Heap_DL.cpp:2658-2665 | a large request goes to a smallest chunk that fits, unless the designated victim is one or nothing fits |
| `Heap.MallocState.PrependAlloc` | turf/impl/Heap_DL.cpp:1985-2023 | a region just below a segment extends it; the block comes from its front and the rest is merged with the chunk that used to be first |
| `Heap.MallocState.AddSegment` | turf/impl/Heap_DL.cpp:2027-2077 | the old top is closed off by a segment record and fenceposts, its remainder is binned, and the new region is the top; all blocks keep their contents |
| `Heap.MallocState.SysAlloc` | turf/impl/Heap_DL.cpp:2082-2279 | null exactly if the size overflows, the footprint limit would be passed or the system refuses, and then nothing has changed; any region that the system gives is enough for the request: one that follows the newest segment extends its top, one that precedes a segment extends that and holds the block in front, any other becomes a segment; footprint and peak grow by what was mapped and stay within the limit |
| `SystemSizes.AllocLeast` | turf/impl/Heap_DL.cpp:2097-2099 | what is asked of the system is the least number of whole units with room for the request and the foot, and the overflow test refuses exactly what does not fit a word |
| `Heap.MallocState.ReleaseSegment` | turf/impl/Heap_DL.cpp:2291-2322 | an older segment is given back exactly if nothing in it is in use and the system takes it; otherwise segments and layout are as before |
| `Heap.MallocState.ReleaseUnusedSegments` | turf/impl/Heap_DL.cpp:2284-2328 | the older segments left are exactly those in use and those that the system does not take back, in their order; the counter starts at their number or higher; blocks, the newest segment and the footprint sum are kept |
| `Heap.MallocState.SysTrim` | turf/impl/Heap_DL.cpp:2331-2394 | the top goes down, by whole units, to within a unit of the pad, exactly if the system takes its end back; older segments go as above; the threshold is reset, or set out of reach if there was nothing to give; true exactly if the footprint fell |
| `SystemSizes.SpareOnce` | turf/impl/Heap_DL.cpp:2339-2341 | only one number of whole units leaves more than the pad, but not by more than a unit |
| `SystemSizes.NoLinks` | turf/impl/Heap_DL.cpp:864-872 | no segment record lies in the newest segment, so that `sys_trim` is never held up by one |
| `Heap.MallocState.DisposeChunk` | turf/impl/Heap_DL.cpp:2399-2465 | the block is merged with whatever is free on either side, the top included; the layout is that of the free run around it, and the designated victim is that run exactly if it was next to the block and the top was not |
| `Heap.MallocState.Dlmalloc` | turf/impl/Heap_DL.cpp:2578-2713 | null exactly if nothing held is large enough and no more is to be had. Otherwise a new block, aligned, with the size asked for and less than one minimum chunk more, apart from all others, which keep their contents. It is the front of an exactly fitting binned chunk if the request is small and there is one, or else of the designated victim; of a smallest free chunk that fits otherwise, of the top if none does, and of a region from the system at last; and what is left over is the top, the designated victim or binned, as it should be |
| `Heap.MallocState.Dlfree` | turf/impl/Heap_DL.cpp:2717-2827 | exactly this block is gone and all others keep their contents; no usage error is raised. A run that reaches the top is trimmed exactly if the top has come to exceed the threshold; one that goes to a tree bin is counted, and segments are looked through exactly when the counter comes to zero; otherwise the layout is that of the merged run and segments, threshold and counter are as before |
| `Heap.MallocState.TryReallocChunk` | turf/impl/Heap_DL.cpp:2847-2924 | in place exactly if the block is large enough or what follows it (top, designated victim or free chunk) makes it so; never moves |
| `Heap.MallocState.Dlrealloc` | turf/impl/Heap_DL.cpp:3175-3221 | null exactly if the request is out of range, or the block is stuck and dlmalloc refuses, and then the old block is untouched; in place if it is not stuck, and where dlmalloc puts a new block otherwise; the first min(old usable, new) bytes of the old are there, and all other blocks are kept |
| `Heap.MallocState.InternalMemalign` | turf/impl/Heap_DL.cpp:2926-2998 | null exactly if the request is out of range or dlmalloc refuses the padded one; otherwise one new block at a multiple of the alignment, large enough, at the first place in what dlmalloc gave that leaves nothing in front or a whole chunk; the lead and the tail are given back |
| `Aligned.RoundedIs` | turf/impl/Heap_DL.cpp:2928-2934 | the alignment used is the least power of two that is not below what was asked for, nor below 32 |
| `Aligned.DoublingReaches` | turf/impl/Heap_DL.cpp:2930-2934 | the rounding loop ends if and only if the alignment is at most 2^63 |
| `Heap.MallocState.InternalBulkFree` | turf/impl/Heap_DL.cpp:3133-3173 | all listed blocks are gone and all entries are null; pairwise merging has led to the same layout as freeing each block in turn, and it is trimmed exactly if its top exceeds the threshold |
| `Heap.MallocState.InternalMallocStats` | turf/impl/Heap_DL.cpp:1584-1614 | the walk over all segments finds what the live blocks add up to, records and fenceposts not counted, the footprint is the sum of the segments, and the peak is no lower |
| `Canonical.CanonicalLayout` | turf/impl/Heap_DL.cpp:1520-1549 | two settled layouts of the same segments with the same live blocks are the same layout |
| `Canonical.FreedAtRest` | turf/impl/Heap_DL.cpp:2399-2465 | freeing with merging on both sides leads from a settled layout to a settled one with just this block gone; so by `CanonicalLayout` it is the only one |
| `Canonical.FreeCommutes` | turf/impl/Heap_DL.cpp:2717-2827 | two blocks freed in either order leave the same layout |
| `Canonical.AnyOrder` | turf/impl/Heap_DL.cpp:3133-3173 | the layout after freeing a list of blocks depends only on which they are |
| `Blocks.BlocksDisjoint` | turf/impl/Heap_DL.cpp:436-437 | the usable parts of two live blocks, each with the foot that belongs to the next chunk, never meet, and each is aligned |
| `Blocks.UserWrite` | turf/impl/Heap_DL.cpp:490-507 | whatever a caller writes to a word of its block, the heap stays valid and all other blocks keep their contents |
| `Checker.CheckAny` | turf/impl/Heap_DL.cpp:1316-1319 | every chunk is aligned and at or above the least address |
| `Checker.CheckTop` | turf/impl/Heap_DL.cpp:1322-1335 | the assertions about the top hold |
| `Checker.CheckInuse` | turf/impl/Heap_DL.cpp:1350-1358 | the assertions about a chunk in use hold |
| `Checker.CheckFree` | turf/impl/Heap_DL.cpp:1361-1381 | the assertions about a free chunk hold |
| `Checker.CheckMalloced` | turf/impl/Heap_DL.cpp:1384-1395 | the assertions about a block just granted hold |
| `Checker.CheckTree` | turf/impl/Heap_DL.cpp:1398-1446 | the assertions about a tree hold at every node below: index bracket, one parented node in each ring, links back from the children, and left child smaller than right |
| `Checker.CheckTreebin` | turf/impl/Heap_DL.cpp:1449-1457 | the bit of a tree bin agrees with its root, and its tree passes |
| `Checker.CheckSmallbin` | turf/impl/Heap_DL.cpp:1460-1481 | every chunk of a small bin is free, of the bin's size, and followed by a chunk in use |
| `Checker.BinFind` | turf/impl/Heap_DL.cpp:1484-1517 | the search by size finds a chunk exactly if it is binned |
| `Checker.TraverseAndCheck` | turf/impl/Heap_DL.cpp:1520-1549 | every chunk met passes: those in use are not binned, the free ones are or are the designated victim, no two free ones follow each other; and the sum is no more than the segments |
| `Checker.CheckMallocState` | turf/impl/Heap_DL.cpp:1552-1578 | the whole debug check passes in every valid heap |
| `Replay.Run` | turf/impl/Heap_DL.cpp:2578-2827 | whatever sequence of mallocs, frees and user writes is replayed from a zeroed state, with whatever answers of the system: the debug check passes after each; each block held has the size asked for and the words last written to it; and in the end the heap walk agrees with the running count of bytes in use |
| `SpinKicker.KickWaitsForAll` | turf/extra/SpinKicker.h:40-46 | the kick goes through exactly when all workers wait at this gate |
| `JobDispatcher.EveryKick` | turf/extra/JobDispatcher.h:49-209 | in every interleaving, a call that returns has run its action exactly once on each thread it is for, if and only if it is not a kickMulti with fewer targets than threads; and until it returns, some thread can move |
| `JobDispatcher.KickReturns` | turf/extra/JobDispatcher.h:145-146 | when the end gate has been kicked nobody is inside the action; a shrinking kickMulti has called nothing |
| `JobDispatcher.CallReturns` | turf/extra/JobDispatcher.h:98-209 | every call returns after a bounded number of steps that are not spinning |
| `JobDispatcher.SomeoneMoves` | turf/extra/JobDispatcher.h:98-122 | inside a call, waits at gates and joins included, the main thread or a worker can take a step that is not spinning |
| `JobDispatcher.NothingEarly` | turf/extra/JobDispatcher.h:53-59 | before the start gate of a call opens, nothing has been called and nobody is about to |
| `JobDispatcher.ExitingRunNothing` | turf/extra/JobDispatcher.h:56-57 | a thread told to exit never gets to the action |
| `JobDispatcher.ShrinkLeaves` | turf/extra/JobDispatcher.h:103-114 | after a change of size exactly the threads asked for are left, and they are on their way to the start gate |
| `JobDispatcher.KickMultiCallsNothing` | turf/extra/JobDispatcher.h:150-169 | a reachable kickMulti on one of two threads that returns without having called its action |
| `TraceMemLog.DistinctSlots` | turf/impl/Trace_MemLog.h:67-81 | in every interleaving no two calls get the same slot |
| `TraceMemLog.RetainedPages` | turf/impl/Trace_MemLog.cpp:42-59 | all pages but the last are full; with the lock free the last four pages made are retained, or all if there are fewer, and one more only while the maker of a new page has yet to count it or drop the oldest |
| `TraceMemLog.NoDeadlock` | turf/impl/Trace_MemLog.cpp:29-63 | while a call is under way, some thread can step |
| `TraceMemLog.FinalLog` | turf/impl/Trace_MemLog.h:83-124 | when no call is under way, the slots of the retained pages are those of the calls that got them, each holding its call's event, a call is there exactly if its page is one of the last four made, and the tail's counter is in range |
| `TraceMemLog.FinalCount` | turf/impl/Trace_MemLog.cpp:42-72 | the number of calls made says how many pages were made, no more than needed, and how many events are retained: all of them up to four pages |
| `TraceMemLog.AllSlotsOnce` | turf/impl/Trace_MemLog.h:117-124 | the list of slots has each claimed slot of the retained pages once, and no other |
| `TraceMemLog.Iterator.Increment` | turf/impl/Trace_MemLog.h:94-106 | moves on by exactly one position, over page ends, and comes to rest at `end()` |
| `TraceMemLog.Enumerate` | turf/impl/Trace_MemLog.h:108-124 | from `begin()` to `end()` the iterator visits exactly that list |
| `TraceMemLog.DumpStats` | turf/impl/Trace_MemLog.cpp:65-72 | the number printed is the length of that list |
| `TraceMemLog.DumpEntireLog` | turf/impl/Trace_MemLog.cpp:74-89 | what is printed is that list without the pages skipped, even if a full tail's counter has run over |
| `UniqueSequence.PermuteIs` | turf/extra/UniqueSequence.h:34-40 | below the prime, the image is congruent to the square in the lower half and to its negative in the upper; beyond, the number itself |
| `UniqueSequence.PermutedOnce` | turf/extra/UniqueSequence.h:38-39 | no other number is so |
| `UniqueSequence.PermuteInjective` | turf/extra/UniqueSequence.h:34-40 | no two 32-bit numbers are permuted to one |
| `UniqueSequence.PermuteOnto` | turf/extra/UniqueSequence.h:34-40 | every 32-bit number is reached |
| `UniqueSequence.OutputsDistinct` | turf/extra/UniqueSequence.h:42-44 | any 2^32 consecutive outputs are distinct, whatever the start and the parameters |
| `UniqueSequence.UniqueSequence.Next` | turf/extra/UniqueSequence.h:42-44 | returns the next element of the sequence of which `OutputsDistinct` speaks: the index permuted, the first parameter added modulo 2^32, the bits of the second flipped, and permuted again |
| `Primality.Certificate` | turf/extra/UniqueSequence.h:35 | Pocklington's criterion, by which the modulus is shown to be prime |
| `Primality.Prime4294967291` | turf/extra/UniqueSequence.h:35 | the modulus is prime |
| `Primality.Prime65521` | turf/extra/TimeWaster.cpp:28-32 | the size of the table is prime |
| `Avalanche.Inverse32` | turf/Util.h:143-159 | the two 32-bit mixers undo each other, in both directions |
| `Avalanche.Inverse64` | turf/Util.h:162-178 | the two 64-bit mixers undo each other, in both directions |
| `Avalanche.Avalanche64Zero` | turf/Util.h:162-169 | only zero is mixed to zero |
| `Random.AdvanceBits` | turf/extra/Random.cpp:38-42 | each bit of the new word is the parity of six bits of the old ones, at the distances of the three shifts |
| `Random.Invertible` | turf/extra/Random.cpp:37-43 | every state of the generator has exactly one predecessor |
| `Random.FixesOnlyZero` | turf/extra/Random.cpp:37-43 | the step leaves zero as it is, and no other state |
| `Random.AdvanceZero` | turf/extra/Random.cpp:37-43 | no other state steps to zero |
| `Random.Random.constructor` | turf/extra/Random.cpp:23-35 | ten steps from the seeds of the clock, the timer and the thread, which are not zero, and so never the zero state |
| `Random.SeedsTell` | turf/extra/Random.cpp:23-35 | two generators start alike exactly if their mixed times agree but for the lowest bit, and so do their mixed timers and threads |
| `Random.Random.Next64` | turf/extra/Random.cpp:37-43 | the state advances by that step and never becomes zero |
| `TimeWaster.VisitsAll` | turf/extra/TimeWaster.cpp:34-42 | every index is visited within one round, whatever the start and the step |
| `TimeWaster.StopsIff` | turf/extra/TimeWaster.cpp:34-42 | the walk comes to an entry with three low zero bits if and only if the table has one |
| `TimeWaster.TimeWaster.WasteRandomCycles` | turf/extra/TimeWaster.cpp:34-42 | stops at the first such entry within one round, with the position in range |

## Left out

- Direct mappings of large requests: `mflags` is zero in a zeroed state, so that `use_mmap` never holds and `mmap_alloc` and `mmap_resize` are not reached.
- The running count of bytes in use across realloc, memalign and bulk free: the source marks realloc with it as unsupported (turf/impl/Heap_DL.cpp:3176-3178).
- `MORECORE`, `mremap`, `FOOTERS` and continuing after errors, all compiled out in the modelled configuration (8-byte words, alignment 16).
- Granularity and page size are those of a system with a power of two from 2^12 to 2^62; the lazily initialised parameters are taken as initialised.
- What the heap does with chunks of 2^40 bytes and more under the GCC form of `compute_tree_index`: its bins are modelled with the `size_t` forms.
- Stores of less than a word by callers: memory is made of words, and a caller writes whole ones inside its block. `memcpy` copies whole words and then the low bytes of the last.
- The two copies of the merging code in `dispose_chunk` and `dlfree` are one pair of methods here, and `dlmalloc` is split into methods along its branches.
- `Checker.CheckAny`: fenceposts, which the source allows to be misaligned, never reach it and are not spoken of.
- `Replay.Run`: replays mallocs, frees and user writes, which are the operations that keep the running count; the others keep `Valid()` and `Accounted()` by their own contracts.
- `dlcalloc`, `dlrealloc_in_place`, `dlvalloc`, the independent allocations, inspection and the option setters, which are made of the modelled operations.
- The mutexes around the heap and the log: a locked section is one operation of the heap, and a lock in the log's state machine.
- Weak memory and fences: the state machines are sequentially consistent, one atomic operation to a step.
- Writes of a slow `log` call to a page that has been dropped meanwhile: pages have unique numbers, and nothing is claimed about the contents of dropped ones.
- Overflow of the log's counters and of `ureg` thread counts.
- Affinities, thread start-up, files, printing, clocks and thread ids, which are parameters or have no effect on what is stated.
