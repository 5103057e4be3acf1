# Verification of the allocazam allocators

A Dafny model of the C++ library in `lib/`: the boundary-tag runner, its lock-free
remote-free stack, the node pool with its granule headers, the thread-local run cache,
and the system of owner-routed threads made of them. The constants are those of a
64-bit build: headers and epilogues of 16 bytes, runs of at least 48, a remainder is
split off from 112 bytes on.

Check it with `dafny verify dfyconfig.toml`.

## How the model is built

The model has four layers.

* **Values.** `Tiling` describes a heap as a map from header addresses to runs, each
  knowing its size, whether it is free, the size of the run before it, and its chunk.
  `HeapOps` gives releasing, carving, stretching and adding a chunk as functions on
  such maps and proves that each keeps the heap well formed; `CanonicalForm` proves
  that the live runs and the chunks determine the tiling. `FreeLists` and `BinMask`
  describe the bins and the bitmask, `Chains` singly linked lists, `SizeClasses` and
  `Words` the arithmetic, `Granules` the layout of pool chunks.
* **Knowledge.** `RunnerState` and `PoolState` are the runner and the pool as functions
  from what they know (tiling, lists, parked runs, chunks, growth; never memory) to what
  they know next and what they answer. Properties of whole sequences of operations are
  proved there.
* **Objects.** `Runner.Allocator`, `Pool.NodePool` and `RunCache.Cache` are classes with
  the fields of the C++ classes. Memory is a map from word addresses to words, and the
  methods read and write headers, footers, links, stamps and bins as the C++ does.
  `Valid()` ties that memory to the values of the first layer: `HeapMemory.MemOk`
  (headers, flags, footers, owner words, epilogues), `FreeLists.BinsOk` (each bin's
  doubly linked list holds exactly the free runs of its size class), `Runner.MaskOk`,
  and the chain of parked runs. Each method states that it takes exactly one step of the
  second layer (`Knows()`), and which words it leaves alone. `CacheHeap` runs a cache and
  its thread's `Allocator` together on one memory, entries of other runners included, and
  `CacheHistories` has two histories of such a pair.
* **Protocols.** `RemoteStack` takes one remote stack apart into the single loads, link
  writes, compare-exchanges (which may fail spuriously) and the exchange, interleaved
  over any number of threads. `NodePools` does so for the pools of any number of threads
  over one memory, with their counters and with routing by granule headers. `Threads` is
  the corresponding machine for runs: a runner and a cache with its class lists for
  every thread; its steps are allocation, expansion, caching, routing, the two ends of
  a push, the exchange and the replay of one run. `SharedHeap` puts words under that
  machine: one memory for all, and moves that are runner operations, stores, single
  loads, link writes and compare-exchanges. Every move is one step of `Threads` or none,
  and the methods of `Runner.Allocator` are moves. `NodeMoves` shows the same of the
  methods of `Pool.NodePool` and the steps of `NodePools`.

The operating system is a parameter: `RunnerState.System` answers the k-th request for a
number of bytes with a region or with a failure, `PoolState.Source` does the same for a
pool. Both are only required to hand out regions that are usable and apart from what
is owned already (`Runner.SoundSystem`, `Pool.SoundSource`).

## What the code does where its comments say otherwise

* The comment on the bins speaks of linear bins up to 2 KiB (lib/runner.hpp:372); the
  cutoff in force is 4096, and a run of exactly 4096 bytes already falls in the first
  logarithmic bin, since `bytes | 1` is rounded up (`SizeClasses.CutoffIsFourKiB`).
* The prev-free flag of an epilogue is written once and never follows the run before it,
  because `_next_run` answers null there. It is right exactly while that run is free
  (`HeapMemory.EpilogueFlagExact`, `HeapMemory.EpilogueFlagCanLie`). The flag of every
  other run is exact, which is part of `HeapMemory.MemOk`.
* The first grow of a runner is not doubled: the constructor overwrites the growth with
  the size of the first chunk (`Runner.Allocator.AsConstructed`). What is owned still
  doubles with every chunk (`RunnerState.OwnedDoubles`).
* A grow of a pool that fails has doubled the next growth all the same. A pool of n chunks
  has first * (2^n - 1) slots if and only if no grow has succeeded after a failed one
  (`PoolState.CapacityByHistory`); `PoolState.GrowthAfterFailure` is a pool of one node
  that has five after one grow.
* A class of the thread cache may hold 35 entries although its high watermark is 32,
  because refilling does not look at the watermark (`CacheHistories.ReachThirtyFive`); at
  most 32 of them are foreign (`RunCache.ClassOk`).
* When the refill throws, the run already granted to the caller is lost: it stays
  allocated, and neither the caller nor the cache has it (lib/allocazam.hpp:1042-1049).
  That happens exactly when a later allocation of the refill is the first that finds no
  memory (`CacheHeap.AllocateFrom`, `CacheHeap.GrowingTakes`); `CacheHistories.LoseOne` is
  a history in which it does.
* A runner that may grow throws and never answers null for a request that can be served,
  so the second attempt after draining the cache, and the early end of the refill, are
  reached with fixed runners only (`CacheHeap.TakeOne`, `RunnerState.Exhausted`).
* The owner word of a run means something only while the run is allocated.

## Model

| member | source | states |
|---|---|---|
| Words.CheckedAdd | lib/types.hpp:41-47 | Succeeds exactly when the mathematical sum is a word, and is then that sum: the test itself does not wrap. |
| Words.CheckedMul | lib/types.hpp:49-59 | Succeeds exactly when the mathematical product is a word, although the test divides. |
| Words.CheckedRoundToMultipleOf | lib/types.hpp:61-71 | Yields the least multiple not below the value; fails exactly for a zero multiple or when that least multiple is no word. |
| SizeClasses.NormalizedIsLeast | lib/runner.hpp:352-368 | A request can be normalised if and only if it is at most 2^64 - 32, and then gets the least legal run size whose payload holds it. |
| SizeClasses.BinAlignment | lib/runner.hpp:386-388 | For every legal run size that is a word, the rounding of the bin computation does not wrap. |
| SizeClasses.BinInRange | lib/runner.hpp:386-394 | Every legal size has a bin, and a linear one exactly below 4096. |
| SizeClasses.BinMonotone | lib/runner.hpp:386-394 | Larger runs never fall in lower bins, across linear, logarithmic and last bin. |
| SizeClasses.LinearBinExact | lib/runner.hpp:386-394 | A linear bin holds runs of one size only, so its head need not be compared. |
| SizeClasses.CutoffIsFourKiB | lib/runner.hpp:370-375 | Sizes 2048 and 4080 have linear bins, 4096 does not: the documented 2 KiB is not what the code does. |
| SizeClasses.WasteBound | lib/runner.hpp:564-592 | A granted run is at most 96 bytes larger than the need, and run and remainder are of legal size; a remainder is cut off if and only if it has at least 112 bytes. |
| BinMask.AssignBit | lib/runner.hpp:465-471 | Setting or clearing the bit of one bin changes the mask value to one that differs in that bin only. |
| BinMask.WithMaskBit | lib/runner.hpp:376-378 | After the change, each bin's bit is as before but for the one named: word index and bit of different bins never collide. |
| BinMask.FirstNonemptyFrom | lib/runner.hpp:473-494 | The word-wise search with shifted first word and countr_zero finds the least set bin from the start on, or bin_count if there is none, for every mask and every start. |
| BinMask.CountrZeroIsLeast | lib/runner.hpp:484-488 | countr_zero of a nonzero word is its least set bit. |
| BinMask.BinSpan | lib/runner.hpp:386-394 | From 4096 bytes on a bin holds the sizes between two neighbouring powers of two, bin 512 those from 2^12 on; the last bin holds exactly the sizes from 2^35 on. |
| BinMask.LowerBinBytes | lib/runner.hpp:386-394 | A run in no higher a bin is no larger than the other below 4096 bytes, and less than twice as large below 2^35. |
| BinMask.RunAlignmentServes | lib/runner.hpp:114-116 | A payload behind a header at a multiple of 16 has every power-of-two alignment up to 16. |
| HeapOps.ReleaseShape | lib/runner.hpp:280-326 | Freeing with coalescing turns exactly the run and its free neighbours into one free run, leaves every other run alone, and keeps the tiling. |
| HeapOps.ReleaseKeeps | lib/runner.hpp:280-326 | Freeing keeps tiling and coalescing, never crosses a chunk boundary even between contiguous chunks, and takes exactly that run from the live ones. |
| HeapOps.CarveKeeps | lib/runner.hpp:564-592 | Taking from a free run keeps tiling and coalescing and adds exactly one live run, of the granted size. |
| HeapOps.StretchKeeps | lib/runner.hpp:241-263 | Expanding keeps tiling and coalescing, moves no run, and changes the size of that one live run only. |
| HeapOps.ChunkKeeps | lib/runner.hpp:651-661 | A new chunk adds one free run and no live one, and keeps the heap well formed. |
| CanonicalForm.LiveDeterminesRuns | lib/runner.hpp:280-326 | Two well-formed heaps with the same chunks and live runs are the same heap: the tiling has a canonical form. |
| CanonicalForm.GapsAreFreeRuns | lib/runner.hpp:280-326 | A stretch of a chunk meets no live run if and only if it lies within one free run: free runs are the maximal gaps. |
| CanonicalForm.ReleaseAllKeeps | lib/runner.hpp:612-628 | Freeing a list of distinct live runs removes exactly those and keeps the heap well formed. |
| CanonicalForm.ReleaseOrderIrrelevant | lib/runner.hpp:612-628 | Freeing the same runs in any two orders gives the same heap, run for run. |
| CanonicalForm.ReleasingAllRestoresChunks | lib/runner.hpp:651-661 | Whatever the order, once everything is freed each chunk is again one free run of its bytes less 16. |
| FreeLists.LinkKeeps | lib/runner.hpp:496-507 | The link words written index exactly one more run, in the bin of its size, and touch only links of indexed runs. |
| FreeLists.UnlinkKeeps | lib/runner.hpp:509-525 | The link words written take exactly one run out of the index, at the head, in the middle or at the end of its list. |
| HeapMemory.Pack | lib/runner.hpp:396-402 | Size and both flags can be read back from the packed word. |
| HeapMemory.EpilogueFlagExact | lib/runner.hpp:446-452 | The prev-free flag of an epilogue is right if and only if the last run of its chunk is free. |
| HeapMemory.EpilogueFlagCanLie | lib/runner.hpp:446-452 | A well-formed heap whose epilogue flag is wrong. |
| HeapMemory.ReleaseInMemory | lib/runner.hpp:317-323 | Header, footer and next flag written by a free leave memory in agreement with the coalesced tiling, and every other allocated payload as it was. |
| HeapMemory.GrantInMemory | lib/runner.hpp:572-604 | The words written by a grant or an expansion, split or not, leave memory in agreement with the new tiling and every other payload as it was. |
| HeapMemory.ChunkInMemory | lib/runner.hpp:651-661 | The words of a new chunk leave memory in agreement with the larger heap and every payload as it was. |
| HeapSteps.Neighbours | lib/runner.hpp:446-461 | What the header words and the footer before a run say about both neighbours is what the tiling says, chunk ends included. |
| Runner.Allocator.LinkFree | lib/runner.hpp:496-507 | The index (bins, doubly linked lists, mask) gains exactly this run; memory, bins and mask are given word for word. |
| Runner.Allocator.UnlinkFree | lib/runner.hpp:509-525 | The index loses exactly this run, and a mask bit goes exactly when its bin becomes empty. |
| Runner.Allocator.FindFit | lib/runner.hpp:527-562 | Answers null if and only if no free run anywhere is large enough; else a free run that is large enough, from the lowest bin that has one. In bytes: if it is below 4096, no run that fits is smaller, and if it is below 2^35, it is less than twice as large as any that fits. |
| Runner.Allocator.AllocateFromFreeRun | lib/runner.hpp:564-605 | The heap becomes the old one carved at that run; all views of memory agree with it, and payloads and parked links survive. |
| Runner.Allocator.DeallocateBytes | lib/runner.hpp:280-326 | The heap becomes the old one with that run released; index, flags, footers and mask agree with it, and every other allocated payload, so also the link of every parked run, is unchanged word for word. |
| Runner.Allocator.Expand | lib/runner.hpp:209-278 | The result reaches the request if and only if the payload already did, or would together with a free run right behind, header and all; otherwise nothing at all changes; base address, old payload and all other payloads are preserved. |
| RunnerState.ReachesMeans | lib/runner.hpp:219-239 | Rounding the request to a run size before comparing refuses nothing that the bytes of the two runs could hold. |
| Runner.Allocator.AllocateBytes | lib/runner.hpp:110-164 | A request is tried exactly if its alignment is at most 16 and it is at most 2^64 - 32 bytes; any other is answered null and nothing changes. A payload granted for a power-of-two alignment is a multiple of it. The granted run was not live, exceeds the need by at most 96 bytes, and is the only new live run; drained runs are the only ones that disappear. It throws if and only if nothing owned fits even with the parked runs freed and the deferred chunk, or else the one grow, is refused; it answers null if and only if it would have to grow and may not; the number of chunks it brings is exact; every payload not drained and every word outside the chunks survives. |
| RunnerState.ServableMeans | lib/runner.hpp:110-133 | A request is tried if and only if its alignment is at most 16 and it is at most 2^64 - 32 bytes. |
| RunnerState.AlignmentOnlyRefuses | lib/runner.hpp:114-116 | An alignment up to 16 makes no difference to what an allocation does; beyond that the answer is null and nothing happens. |
| Runner.Allocator.FindOrGrow | lib/runner.hpp:134-156 | Search, drain, deferred chunk and grow in that order, each only if the one before did not do: when it throws, when it answers null and how many chunks it brings are exact, and after a successful grow the search succeeds. |
| Runner.Allocator.FindByGrowing | lib/runner.hpp:148-156 | With nothing that fits, a fixed runner answers null and one that may grow throws exactly if that grow is refused, and else has a run that fits. |
| Runner.Allocator.AddOwnedChunk | lib/runner.hpp:663-681 | One chunk more, of whole pages and at least the bytes asked for, as one free run; or nothing changed, exactly when rounding overflows or the system refuses. |
| RunnerState.OwnedChunkIsLeast | lib/runner.hpp:343-350 | A chunk has the least number of whole pages that holds the bytes asked for and the least chunk of 64; none is made if and only if there are no pages or that number of bytes is no word. |
| Runner.Allocator.GrowFor | lib/runner.hpp:630-649 | Fails if and only if the overhead overflows, rounding to whole pages does, or the system refuses that very request; else adds one chunk with a free run that fits the need, of just the pages that hold the planned growth and the need with 64 bytes more, and at least doubles what is owned; the next growth is twice that chunk, or the largest word. |
| RunnerState.GrowRefusedMeans | lib/runner.hpp:630-649 | When a grow fails, in numbers: the need with 64 bytes is no word, or the pages that hold it and the planned growth are none, or the system refuses just those. |
| RunnerState.SaturatedGrowthFails | lib/runner.hpp:630-649 | Once the growth has saturated at the largest word, rounding to pages overflows, so the next grow throws. |
| RunnerState.OwnedDoubles | lib/runner.hpp:630-649 | Over every sequence of operations, a runner with n chunks, lazily or eagerly made, owns at least its oldest chunk doubled n - 1 times. |
| Runner.Allocator.GrowthIsGeometric | lib/runner.hpp:630-649 | The same read off the chunks of any runner in order, whatever brought them. |
| Runner.Allocator.Written | lib/runner.hpp:191-194 | Stores of users and caches into payloads they hold, and of other runners into their own chunks, leave a runner in order. |
| Runner.BackingFits | lib/runner.hpp:683-707 | Caller-supplied memory is refused exactly when no aligned chunk of least size fits in it, and is otherwise used up to less than 16 bytes at either end. |
| Runner.Allocator.FromBacking | lib/runner.hpp:96-98 | Throws exactly when the backing does not fit, and else starts with that one chunk as one free run of its bytes less 16, in its bin and mask bit, with nothing parked, deferred or asked of the system; owner word, page size, system and whether it may grow are the arguments. |
| Runner.Allocator.Eager | lib/runner.hpp:84-87 | The eager constructor leaves one chunk as one free run, with the growth set to that chunk's size; it throws exactly when rounding or the system fails. |
| Runner.Allocator.Lazy | lib/runner.hpp:89-94 | The lazy constructor owns nothing and defers at least one byte. |
| Runner.KnowledgeIsHeap | lib/runner.hpp:84-94 | Two runners that know the same hold the same words wherever the heap keeps its own: bins, bitmask, remote head, headers, footers, owner words, links of free and of parked runs. |
| RunnerState.LazyEqualsEager | lib/runner.hpp:84-94 | For every sequence of allocations, frees, expansions, pushes and drains, a lazily and an eagerly constructed runner give the same answers, and from the first allocation that can be served on they know the same. |
| RunnerState.LazyThrowsLater | lib/runner.hpp:141-147 | Where the eager constructor throws, the lazy runner throws at its first allocation that can be served. |
| Runner.Allocator.OwnsRun | lib/runner.hpp:196-207 | True exactly for addresses within an owned chunk. |
| Runner.Allocator.RemotePush | lib/runner.hpp:170-178 | The run becomes the head of the stack of parked runs, stays allocated, and no other payload changes. |
| Runner.Allocator.DrainRemote | lib/runner.hpp:612-628 | Replaying reads each link while it is still intact, ends, and frees exactly the batch taken over, in its order; everything else survives. |
| RemoteStack.StepKeeps | lib/runner.hpp:170-178 | Every step of every interleaving keeps the stack and the batch acyclic lists of exactly the parked and taken blocks, with every pusher's link write still in place. |
| RemoteStack.ExactlyOnce | lib/runner.hpp:170-178 | Over every interleaving, the stack is exactly the pushes completed since the last exchange; each push is replayed at most once, and once for good when stack and batch are empty. |
| RemoteStack.WalkEnds | lib/runner.hpp:612-628 | The owner's walk ends after exactly the blocks it took, all of them free, and leaves the stack that has formed meanwhile alone. |
| RemoteStack.WalkUndisturbed | lib/runner.hpp:612-628 | Whatever pushes, writes of other blocks and writes into freed blocks come between its steps, the walk is at exactly the rest of what it took, can always go on, and takes no more steps than there are blocks. |
| RemoteStack.AbaImmune | lib/allocazam.hpp:268-271 | In every reachable state, a compare-exchange that succeeds pushes properly onto the list that is there then, whether or not its expected head was drained, recycled and pushed again in between. |
| RemoteStack.AbaHappens | lib/allocazam.hpp:268-271 | Such a history exists: the expected head can be drained, reissued and pushed again before the compare-exchange succeeds. |
| RemoteStack.RetrySucceeds | lib/runner.hpp:173-177 | From every reachable state in which a compare-exchange may fail: after the failure, the next link write and compare-exchange succeed if nothing comes between, and the block heads the list that was there, with no other link changed. |
| RemoteStack.PushSucceeds | lib/runner.hpp:170-178 | A push that nothing comes between succeeds at its first try. |
| RemoteStack.OnlySuccessDisturbs | lib/runner.hpp:170-178 | Lock freedom: over any steps of any threads in which no push completes and no exchange happens, a head once loaded is still the head, and the compare-exchange on it can succeed. |
| RemoteStack.Lifecycle | lib/runner.hpp:170-178 | A block changes its place (user, pusher, stack, batch, free) exactly by the one step whose business that is, and no other block moves. |
| Granules.BitCeilIsLeast | lib/types.hpp:117-121 | The granule is the least power of two not below what it must hold. |
| Granules.GranuleShape | lib/types.hpp:115-127 | For every page size and node size, a granule is a power of two that holds its header and at least one node, and the node alignment divides it and the offset of the first node. |
| Granules.GranuleIsLeast | lib/types.hpp:117-121 | It is the least power of two that holds a page, and header and node. |
| Granules.GranuleIsFull | lib/types.hpp:123-127 | One node more than the granule is given would not fit in it. |
| Granules.FirstNodeIsNearest | lib/types.hpp:114-115 | The first node lies at the least offset that is aligned and at least 16. |
| Granules.PageOfNodes | lib/types.hpp:115-127 | With 64-byte nodes and 4 KiB pages a granule is a page of 63 nodes. |
| Granules.ContainsIsMembership | lib/types.hpp:227-255 | `contains` holds exactly for the addresses `at(i)` of the seeded slots, and no two slots share an address. |
| Granules.NodesApart | lib/types.hpp:212-225 | Nodes overlap neither each other nor a granule header. |
| Granules.WithinChunk | lib/types.hpp:140-165 | The computed number of granules holds every slot and every header. |
| Granules.MaskFindsGranule | lib/allocazam.hpp:917-921 | Masking any node address leads to the base of the node's own granule, and every node is aligned. |
| Pool.NodePool.Create | lib/allocazam.hpp:53-85 | A pool size that is no power of two is refused; an eager pool starts with all slots of one chunk free, and is refused exactly if that chunk is; a lazy one starts with none and is never refused. |
| PoolState.SingleBitMeans | lib/allocazam.hpp:58-60 | The pool sizes accepted are exactly the powers of two. |
| Pool.NodePool.AddFirstChunk | lib/allocazam.hpp:143-146 | The first chunk of a lazily made pool: one step of the pool as a function of what it knows, failing exactly if the request is refused. |
| Pool.NodePool.AddChunk | lib/allocazam.hpp:292-312 | Adds exactly the asked number of slots, all free, in a fixed order, with stamped headers; fails, with the slots as they were, if and only if padding or byte count overflow or the source refuses. |
| PoolState.ChunkBytesIsLeast | lib/types.hpp:136-148 | A chunk has the least number of granules that holds its slots; its size is refused if and only if rounding up, or the product, is no word. |
| PoolState.SeedsAt | lib/allocazam.hpp:309 | A new chunk is handed out from its last slot to its first. |
| Pool.NodePool.StampOwner | lib/types.hpp:257-270 | Every granule header of the chunk names the owner, and nothing outside the chunk is written. |
| Pool.NodePool.RoutesHome | lib/allocazam.hpp:912-931 | For every slot, the header found by masking its address names this pool. |
| Pool.NodePool.Owns | lib/allocazam.hpp:337-340 | True exactly for the slots of the pool. |
| Pool.NodePool.Allocate | lib/allocazam.hpp:129-164 | Hands out a slot that nobody held; answers null if and only if a fixed pool has its chunk, no free node and nothing parked, and throws if and only if a chunk is needed and refused; slots stay partitioned, `_size` exact, and the words of held nodes as they were. |
| Pool.NodePool.Deallocate | lib/allocazam.hpp:185-195 | The node heads the free list and is no longer held; the partition and `_size` stay exact, and every other held node keeps its words. |
| Pool.NodePool.RemotePush | lib/allocazam.hpp:201-211 | The node heads the remote stack and is no longer held; free list, `_size` and the words of other held nodes are untouched. |
| Pool.NodePool.DrainRemote | lib/allocazam.hpp:271-290 | Splices exactly the parked nodes onto the free list, in reverse, and lowers `_size` by their number; held nodes keep their words. |
| Pool.NodePool.Grow | lib/allocazam.hpp:326-335 | Doubles the next growth and adds that many slots; fails, with the slots as they were, if and only if the doubling overflows or the chunk is refused. |
| PoolState.CapacityByHistory | lib/allocazam.hpp:326-335 | Over every sequence of operations, a pool of n chunks has at least first * (2^n - 1) slots, and exactly so many if and only if no grow succeeded after one that had failed once the next growth was doubled. |
| PoolState.CapacityByChunks | lib/allocazam.hpp:326-335 | The same read off the chunks: exactly so many if and only if each chunk has just twice the slots of the one before. |
| Pool.NodePool.CapacityIsGeometric | lib/allocazam.hpp:326-335 | It holds of every pool in order, whatever brought its chunks. |
| Pool.KnowledgeIsPool | lib/allocazam.hpp:53-85 | Two pools that know the same hold the same heads, the same links behind them and the same owner in every header. |
| Pool.ReluctantIsSound | lib/allocazam.hpp:326-335 | The source that refuses its second request is one that a pool may have. |
| PoolState.FailureIsGenuine | lib/allocazam.hpp:129-164 | What the pool answers and how many chunks it brings: null, exception and chunk have exact conditions. |
| PoolState.LazyEqualsEager | lib/allocazam.hpp:53-85 | For every sequence of allocations, frees, pushes and drains, a lazily and an eagerly made pool give the same answers, and from the first allocation on they know the same. |
| PoolState.GrowthAfterFailure | lib/allocazam.hpp:326-335 | A history in which a grow fails and the next one succeeds: a pool of one node then has five nodes in two chunks, not three. |
| NodePools.StepKeeps | lib/allocazam.hpp:201-211 | Every load, link write, compare-exchange, exchange and splice of any threads keeps every node in one place, on the list that its place names, and every list spelled by memory. |
| NodePools.CountersExact | lib/allocazam.hpp:271-290 | At every step, mid-push and mid-drain included, `_size` of a pool is the number of its nodes in use, in flight, parked or taken over, and its capacity is that and the free ones. |
| NodePools.RetrySucceeds | lib/allocazam.hpp:201-211 | After any failed compare-exchange, the next link write and compare-exchange succeed if nothing comes between; the node then heads the stack that its own pool had, linked to the old head, and nothing else has moved. |
| NodePools.PushSucceeds | lib/allocazam.hpp:201-211 | A push to another pool that nothing comes between succeeds at its first try. |
| NodePools.WholeDrain | lib/allocazam.hpp:271-290 | An exchange and as many splices as there are parked nodes put them all on the free list, the node parked first in front, lower `_size` by their number, and leave the stack empty and every other pool alone. |
| NodePools.ChunkArrives | lib/allocazam.hpp:292-312 | A chunk in a place that nothing uses brings its pool all its slots: free, its own, and routed to it by their headers. |
| NodePools.Lifecycle | lib/allocazam.hpp:201-211 | A node changes its place exactly by the one step whose business that is, and no other node moves. |
| NodePools.NodeSafety | lib/allocazam.hpp:912-931 | Over every interleaving of any number of pools and threads, each node is routed home by the header that masking finds, is on at most one list, its own pool's, exactly when its place says so, no two nodes of any pools share a byte, and all counters are exact. |
| NodeMoves.IssueStep | lib/allocazam.hpp:129-164 | `allocate` of the real pool with a free node, over the shared memory, is one step. |
| NodeMoves.FreeStep | lib/allocazam.hpp:185-195 | `deallocate` of the real pool is one step. |
| NodeMoves.PushSteps | lib/allocazam.hpp:201-211 | `remote_push` on the real pool, when nothing comes between, is the load, the link write and the compare-exchange. |
| NodeMoves.SpliceStep | lib/allocazam.hpp:271-290 | One round of the drain loop on the real pool is one step. |
| RunCache.ClassFitsPayload | lib/allocazam.hpp:859-870 | The class a run is cached under, one of 256, promises at least the count given and no more than the run's payload; the promise is a multiple of 16 less than 16 above the count. |
| RunCache.RoutingConserves | lib/allocazam.hpp:1000-1015 | Draining sends each entry exactly one way: local ones to the runner, foreign ones home, none lost or doubled. |
| RunCache.AllForeign | lib/allocazam.hpp:1022-1053 | A class without an own entry has at most 32 entries, which is what bounds the refill. |
| RunCache.Cache.Push | lib/allocazam.hpp:960-966 | The run heads its class, stamped with the owner its header names; link and stamp are the only words written. |
| RunCache.Cache.PopForOwner | lib/allocazam.hpp:968-986 | Takes out the first entry stamped with that owner and no other, wherever it stands; answers null exactly when there is none; at most one link word is written. |
| RunCache.Cache.DrainClass | lib/allocazam.hpp:1000-1015 | Leaves the last `keep` entries and routes all before them by their stamps. |
| RunCache.Cache.DrainAll | lib/allocazam.hpp:1017-1020 | Empties every class and routes every entry by its stamp; nothing is lost. |
| RunCache.Cache.Attach | lib/allocazam.hpp:1076-1091 | A thread that gets its runner after its first frees keeps all its entries; from then on those of that runner count as its own. |
| RunCache.Cache.DeallocateTo | lib/allocazam.hpp:1055-1064 | For a thread with or without a runner: a full class is drained to 16, then the run is cached; its payload, as its header has it, is no smaller than the class promises, the class never ends above 32 by this path, at most 32 entries are ever foreign, and link and stamp of the new entry are the only words written. |
| CacheHeap.TakeOne | lib/allocazam.hpp:1032-1034 | An allocation of the thread's runner spares every cached entry and every run in hand, word for word, and yields a run that is none of them, with its header naming the runner. |
| CacheHeap.StockUp | lib/allocazam.hpp:1042-1049 | The refill puts by up to three runs: distinct, allocated, not parked, of at least the class's payload, and none the caller's; it stops early exactly when a later allocation is the first that throws. |
| CacheHeap.Drain | lib/allocazam.hpp:1000-1015 | Each of the first entries goes home before the next is looked at: own ones are freed by the runner, in order, foreign ones linked to their owners' heads; the rest of the class, the other classes and the runs in hand are untouched, and those links are the only words written outside the runner's chunks. |
| CacheHeap.DrainAll | lib/allocazam.hpp:1017-1020 | The same for every class in turn; nothing is cached afterwards. |
| CacheHeap.StackGrows | lib/runner.hpp:170-178 | Runs sent home to one owner, each linked to what that owner's stack then held, stand in front of the old stack, latest first: nothing parked before is cut off. |
| CacheHeap.OldStackStays | lib/runner.hpp:170-178 | A stack of runs of other threads that are not among those written is spelled by memory as before. |
| CacheHeap.AllocateFrom | lib/allocazam.hpp:1022-1053 | On the real runner and cache: an own entry is handed out if there is one, the first; else a dynamic runner throws if and only if one of up to four allocations does, and loses the run already granted if and only if that is not the first; a fixed one is asked again after everything cached went home, exactly if its first answer is null. What is handed out is allocated, not parked, not cached, the runner's own, and large enough; every other run in hand keeps its words, and outside the runner's chunks only the links of runs sent home are written. |
| CacheHeap.DeallocateTo | lib/allocazam.hpp:1055-1064 | On the real runner and cache: a class of 32 is drained to 16, own runs freed, each other one linked to the head its owner's stack held; then the run enters under any count its payload holds. The heap is the old one with exactly the drained own runs freed; outside the runner's chunks those links and the link and stamp of the new entry are the only words written. |
| CacheHistories.ReachThirtyFive | lib/allocazam.hpp:1042-1049 | A history on two real runners after which a class holds 35 entries: 32 foreign ones and three that a refill has put by. |
| CacheHistories.LoseOne | lib/allocazam.hpp:1042-1049 | A history on a real runner in which a run is lost: a request whose refill needs a third chunk that the system refuses. |
| Threads.RunsNeverMeet | lib/runner.hpp:663-681 | Distinct runs of any threads' heaps occupy disjoint bytes. |
| Threads.StepKeeps | lib/allocazam.hpp:940-952 | Every operation of every thread keeps all heaps well formed, all caches in order, every cached run as large as its class promises, and owner words, places, class lists, stacks and batches in agreement. |
| Threads.PopServes | lib/allocazam.hpp:859-870 | What a class hands out is an allocated run of the thread's own heap whose payload holds every count that falls in the class, whatever was expanded, freed or cached under larger counts before. |
| Threads.SystemSafety | lib/allocazam.hpp:940-952 | Over every run of the system, each live run has one owner, lies in that owner's heap only, meets no other run, and is on one list, once, exactly when its place says so: a class list of one thread's cache, its owner's stack or its owner's batch; and every cached run is as large as its class promises. |
| Threads.CacheIsPrivate | lib/allocazam.hpp:829-851 | Whatever other threads do, a thread's class lists stay as they are, and each entry stays allocated, with the owner that its stamp was taken from. |
| Threads.StepConserves | lib/allocazam.hpp:935-952 | A run becomes live only by allocation and ceases only by its owner freeing it; owner words never change in between. |
| Threads.Lifecycle | lib/allocazam.hpp:935-952 | A run changes its place (user, cache, pusher, stack, batch) exactly by the one step whose business that is, is gone exactly when its owner frees it, and no other run moves. |
| Threads.LastInFirstOut | lib/allocazam.hpp:960-998 | A run put into a class is the first to come out again, and taking it out leaves system and cache as they were. |
| Threads.RunConserves | lib/allocazam.hpp:935-952 | Over every run of the system, each address is allocated as often as freed, once more if it is live: nothing is lost, freed twice or handed out twice. |
| Threads.BatchDrains | lib/runner.hpp:612-628 | The replay of an exchanged batch is never stuck, and its result is the heap with the whole batch released. |
| Threads.QuietHeapIsPristine | lib/runner.hpp:651-661 | Once nothing a thread owns is live, cached, in flight or parked, its stack is empty and each of its chunks is one free run. |
| Threads.ClassDrains | lib/allocazam.hpp:1000-1015 | The drain of a class down to a watermark can always run through; then the first entries, and no other run, went home: own ones freed, foreign ones on their owners' stacks. |
| Threads.ExitSendsHome | lib/allocazam.hpp:829-851 | The destructor of a cache can always run through; then every class is empty, no run is in that cache, own entries are freed, foreign ones wait on their owners' stacks, and nothing else has moved. |
| Threads.ExitUndisturbed | lib/allocazam.hpp:829-851 | Whatever steps of other threads come between those of an exiting one, its cache loses exactly what it takes out, and until the cache is empty it can go on. |
| Threads.HeldGoesHome | lib/allocazam.hpp:935-952 | At any moment a run that a thread has can be freed, if it is its own, or pushed, and a push that has begun can be finished. |
| Threads.HolderChooses | lib/allocazam.hpp:1055-1064 | At any moment a run that a thread has can be handed to any thread, or put into any class that promises no more than its payload and has fewer than 32 entries; an own one while it has fewer than 35. |
| SharedHeap.MovesAreSteps | lib/runner.hpp:170-178 | The single loads, link writes, compare-exchanges, exchanges, stores and runner operations over one memory come down to the steps of Threads: each is one possible step, or none. |
| SharedHeap.MoveKeeps | lib/allocazam.hpp:935-952 | Every move of every thread keeps, for every runner, headers, footers, owner words, bins, bitmask, remote stack and batch spelling one well-formed heap. |
| SharedHeap.OnlyOwnerWrites | lib/allocazam.hpp:935-952 | A thread that is not the owner changes, of all words in a runner's chunks, at most payload words of runs that it holds itself, and of the runner at most the stack head, by one push; runs, chunks, bins, bitmask, lists and batch stay, and memory goes on spelling them. |
| SharedHeap.HeldRunKept | lib/allocazam.hpp:935-952 | A move of another thread neither moves nor resizes a run that a thread uses, caches or is pushing, and changes none of its payload words. |
| SharedHeap.HeldRunKeptThroughout | lib/allocazam.hpp:935-952 | The same over any number of moves of other threads. |
| SharedHeap.SharedSafety | lib/allocazam.hpp:935-952 | From an empty system, over every interleaving: every live run is safe as in Threads.SystemSafety, its owner word in memory names its owner, the header of every cached run says that it is as large as its class promises, and every runner's words spell its heap. |
| SharedHeap.FreeMove | lib/runner.hpp:280-326 | `deallocate_bytes` of the real runner, over the shared memory, is one move. |
| SharedHeap.AllocateMove | lib/runner.hpp:564-605 | Taking a run from a free run, on the real runner, is one move. |
| SharedHeap.ExpandMove | lib/runner.hpp:209-278 | `expand` of the real runner is one move, or nothing happens. |
| SharedHeap.GrowMove | lib/runner.hpp:630-649 | A grow of the real runner is one move, given a system that hands out no region twice to any threads, and none if it fails; the system stays such. |
| SharedHeap.FirstChunkMove | lib/runner.hpp:141-147 | So is the first chunk of a lazily made runner. |
| SharedHeap.ReplayMove | lib/runner.hpp:612-628 | One round of the drain loop on the real runner, link read and free, is one move. |
| SharedHeap.PushMoves | lib/runner.hpp:170-178 | `remote_push` on the real runner, when nothing comes between, is the load, the link write and the compare-exchange. |
| SharedHeap.RetrySucceeds | lib/runner.hpp:173-177 | Over the shared memory: after any failed compare-exchange, the next link write and compare-exchange are possible if nothing comes between, and then the run heads its owner's stack, linked to the head that was there; no other word, runner or thread has changed. |
| SharedHeap.ExchangeMove | lib/runner.hpp:612-617 | The owner can start a drain whenever its last batch is walked; the exchange leaves an empty stack and, from the cursor on, just the runs that were on it. |
| SharedHeap.HolderStores | lib/allocazam.hpp:935-952 | A thread can store any value into any payload word of a run that it uses or caches, and that word alone changes. |

## Left out

- Foreign calls: mmap, huge pages, `operator new` and `detect_page_size` are the parameters `System`, `SoundSource` and the page size.
- lib/exclusive_resource.hpp and the exclusive allocators: a ledger of claims whose properties are read off single branches.
- Weak memory ordering: the protocols interleave sequentially consistent steps.
- The stateless `expand` classifier (lib/allocazam.hpp:720-742) that probes the word before an arbitrary pointer: expansion is modelled on the caller's own runs.
- Misuse (double frees, foreign pointers) and debug asserts: what callers owe is in `requires`.
- Statistics, allocator traits, containers, moves and destruction of chunks and states.
- Raw pools without granule headers and pools over caller-supplied nodes: their layout is a plain array.
- Memory words are unbounded integers under word addresses; all values written by the model are words, but this is not part of the invariants.
- Runner.Allocator.RemotePush: one uncontended push; `SharedHeap` and `RemoteStack` take it apart and interleave it. The same holds for `Pool.NodePool.RemotePush` and `NodePools`.
- RunnerState.LazyEqualsEager: compares answers and knowledge; `Runner.KnowledgeIsHeap` gives the words of the heap from that. Payload words of live runs, which the allocator does not own, are not compared.
- Runner.Allocator.AllocateBytes: a grow refused by the system is an outcome of its own, `BadAlloc`, in place of the C++ exception.
- RunCache.Cache.DrainClass: the routed entries are returned as two lists, as for `RunCache.Cache.DrainAll` and `RunCache.Cache.DeallocateTo`, since a thread may cache runs without having a runner; with one, `CacheHeap` sends them home.
- CacheHeap.TakeOne: asks with alignment 1, which by `RunnerState.AlignmentOnlyRefuses` stands for any up to 16; for a type with a larger one the runner answers every request of the cache with null.
- CacheHeap.AllocateFrom: no other thread writes during the call, and the heads of other runners' stacks are a parameter; `SharedHeap` and `Threads` interleave.
- Threads.StepKeeps: allocation may take any free run that is large enough, and the owner may do other things between the replays of a batch; both allow more than the runner does, so what is proved covers it.
- SharedHeap.MoveKeeps: the links and stamps that a cache writes into its entries are stores among others, and the class lists are values; `RunCache` has their words.
- The registry of thread states: a push-only list that no operation of the allocators reads.
