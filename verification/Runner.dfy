/** The runner: a segregated-fit allocator with boundary tags. The class holds the
    words it manages, the bins and their bitmask; the ghost fields hold the tiling,
    the lists and the parked runs that those words spell. */
module Runner {
  import opened Words
  import opened SizeClasses
  import opened BinMask
  import opened Tiling
  import opened HeapOps
  import opened CanonicalForm
  import opened FreeLists
  import opened HeapMemory
  import opened HeapSteps
  import opened RunnerState

  ghost predicate SoundArena(a: Arena, bytes: nat) {
    && a.base > 0 && a.base % RUN_ALIGNMENT == 0 && IsWord(a.base + bytes)
    && forall w :: w in a.words <==> WordOf(Chunk(a.base, bytes), w)
  }

  ghost predicate SoundSystem(system: System, calls: nat, chunks: set<Chunk>) {
    && (forall k: nat, n: nat {:trigger system(k, n)} :: k >= calls && Requestable(n) && system(k, n).Some? ==>
          SoundArena(system(k, n).value, n))
    && (forall k: nat, n: nat, c :: k >= calls && Requestable(n) && system(k, n).Some? && c in chunks ==>
          Apart(Chunk(system(k, n).value.base, n), c))
    && (forall k: nat, n: nat, l: nat, m: nat {:trigger system(k, n), system(l, m)} ::
          calls <= k < l && Requestable(n) && Requestable(m) && system(k, n).Some? && system(l, m).Some? ==>
          Apart(Chunk(system(k, n).value.base, n), Chunk(system(l, m).value.base, m)))
  }

  ghost function ChunkSet(chunks: seq<Chunk>): set<Chunk> {
    set c | c in chunks
  }

  /** A mask bit is set exactly when its bin is not empty. */
  ghost predicate MaskOk(mask: seq<Word64>, bins: seq<Addr>) {
    && |mask| == WORD_COUNT && |bins| == BIN_COUNT
    && forall i :: 0 <= i < BIN_COUNT ==> (MaskBit(mask, i) <==> bins[i] != 0)
  }

  // The remote stack: from `head`, payload word 0 of each parked run leads to the
  // payload of the next one.
  ghost predicate ParkLink(mem: Memory, s: seq<Addr>, j: nat)
    requires j < |s|
  {
    s[j] + HEADER_SIZE in mem
    && mem[s[j] + HEADER_SIZE] == if j + 1 < |s| then s[j + 1] + HEADER_SIZE else 0
  }

  ghost predicate Chain(mem: Memory, head: Addr, s: seq<Addr>) {
    && head == (if s == [] then 0 else s[0] + HEADER_SIZE)
    && forall j: nat {:trigger ParkLink(mem, s, j)} :: j < |s| ==> ParkLink(mem, s, j)
  }

  /** Parked runs stay chained while other payloads change. */
  lemma ChainKept(before: Memory, after: Memory, runs: Runs, head: Addr, s: seq<Addr>, h: Addr)
    requires Chain(before, head, s) && PayloadsKept(before, after, runs, h)
    requires AllLive(runs, s) && h !in s
    requires forall x :: x in runs ==> runs[x].size >= MIN_RUN
    ensures Chain(after, head, s)
  {
    forall j: nat | j < |s|
      ensures ParkLink(after, s, j)
    {
      assert ParkLink(before, s, j) && s[j] in s;
      assert InPayload(runs, s[j], s[j] + HEADER_SIZE);
    }
  }

  /** Every indexed run in a bin below `bound` is too small. */
  ghost predicate SmallBelow(linked: map<Addr, nat>, needed: nat, bound: int) {
    forall x :: x in linked && BinIndex(linked[x]) < bound ==> linked[x] < needed
  }

  lemma SmallBelowStart(linked: map<Addr, nat>, needed: nat)
    requires SizesOk(linked) && LegalRunSize(needed) && IsWord(needed)
    ensures SmallBelow(linked, needed, BinIndex(needed))
  {
    hide BinIndex, LegalRunSize;
    forall x | x in linked && BinIndex(linked[x]) < BinIndex(needed)
      ensures linked[x] < needed
    {
      if needed <= linked[x] {
        BinMonotone(needed, linked[x]);
      }
    }
  }

  // Skipping empty bins skips no run.
  lemma SmallBelowFound(mem: Memory, bins: seq<Addr>, lists: seq<seq<Addr>>, linked: map<Addr, nat>, mask: seq<Word64>,
                        needed: nat, from: nat, found: nat)
    requires BinsOk(mem, bins, lists, linked) && MaskOk(mask, bins) && found <= BIN_COUNT
    requires SmallBelow(linked, needed, from)
    requires forall j :: from <= j < found ==> !MaskBit(mask, j)
    ensures SmallBelow(linked, needed, found)
    ensures found < BIN_COUNT && MaskBit(mask, found) ==> bins[found] != 0
  {
    hide BinIndex, MaskBit, NodeOk, LegalRunSize, SizesOk, Spaced;
    forall x | x in linked && BinIndex(linked[x]) < found
      ensures linked[x] < needed
    {
      var b := BinIndex(linked[x]);
      assert x in lists[b];
      EmptyBin(mem, bins[b], lists[b]);
    }
  }

  // ... nor does it change what the search finds.
  lemma {:induction false} SkipEmpty(mem: Memory, bins: seq<Addr>, lists: seq<seq<Addr>>, linked: map<Addr, nat>,
                                     mask: seq<Word64>, runs: Runs, needed: nat, from: nat, found: nat)
    requires BinsOk(mem, bins, lists, linked) && MaskOk(mask, bins) && found <= BIN_COUNT
    requires forall j :: from <= j < found ==> !MaskBit(mask, j)
    ensures from <= found ==> BestFit(runs, lists, needed, from) == BestFit(runs, lists, needed, found)
    decreases found - from
  {
    hide MaskBit, NodeOk, Spaced, SizesOk, BinIndex;
    if from >= found {
    } else {
      EmptyBin(mem, bins[from], lists[from]);
      SkipEmpty(mem, bins, lists, linked, mask, runs, needed, from + 1, found);
    }
  }

  lemma HeadIsBest(runs: Runs, lists: seq<seq<Addr>>, needed: nat, idx: nat)
    requires idx < |lists| && lists[idx] != []
    requires var h := lists[idx][0]; h != 0 && h in runs && needed <= runs[h].size
    ensures BestFit(runs, lists, needed, idx) == lists[idx][0]
  {
  }

  lemma FitIsBest(runs: Runs, lists: seq<seq<Addr>>, needed: nat, idx: nat)
    requires idx < |lists| && FirstFit(runs, lists[idx], needed) != 0
    ensures BestFit(runs, lists, needed, idx) == FirstFit(runs, lists[idx], needed)
  {
  }

  // One more entry of a list is looked at.
  lemma NextTried(runs: Runs, s: seq<Addr>, needed: nat, k: nat)
    requires k < |s| && s[k] in runs
    ensures FirstFit(runs, s[k..], needed) == if runs[s[k]].size >= needed then s[k] else FirstFit(runs, s[k + 1..],
                needed)
  {
    assert s[k..][1..] == s[k + 1..];
  }

  // A bin whose whole list has been scanned in vain holds no fit.
  lemma SmallBelowScanned(bins: seq<Addr>, lists: seq<seq<Addr>>, mem: Memory, linked: map<Addr, nat>, needed: nat,
                          idx: nat)
    requires BinsOk(mem, bins, lists, linked) && idx < BIN_COUNT && SmallBelow(linked, needed, idx)
    requires forall j :: 0 <= j < |lists[idx]| ==> lists[idx][j] in linked && linked[lists[idx][j]] < needed
    ensures SmallBelow(linked, needed, idx + 1)
  {
    hide BinIndex, NodeOk, LegalRunSize, SizesOk, Spaced;
    forall x | x in linked && BinIndex(linked[x]) < idx + 1
      ensures linked[x] < needed
    {
      if BinIndex(linked[x]) == idx {
        assert x in lists[idx];
      }
    }
  }

  lemma NoneInBin(runs: Runs, lists: seq<seq<Addr>>, needed: nat, idx: nat)
    requires idx < |lists|
    ensures FirstFit(runs, lists[idx][|lists[idx]|..], needed) == 0
    ensures FirstFit(runs, lists[idx], needed) == 0 ==>
              BestFit(runs, lists, needed, idx) == BestFit(runs, lists, needed, idx + 1)
  {
  }

  lemma NoBinFits(mem: Memory, bins: seq<Addr>, lists: seq<seq<Addr>>, linked: map<Addr, nat>, runs: Runs, needed: nat,
                  idx: nat)
    requires BinsOk(mem, bins, lists, linked) && idx >= BIN_COUNT && SmallBelow(linked, needed, idx)
    ensures forall x :: x in linked ==> linked[x] < needed
    ensures BestFit(runs, lists, needed, idx) == 0
  {
    hide Dll, BinIndex, Spaced, SizesOk;
  }

  lemma LowestBin(linked: map<Addr, nat>, needed: nat, idx: nat, h: Addr)
    requires SmallBelow(linked, needed, idx) && h in linked && BinIndex(linked[h]) == idx && SizesOk(linked)
    ensures forall x :: x in linked && needed <= linked[x] ==>
              && BinIndex(linked[h]) <= BinIndex(linked[x])
              && (linked[h] < 4096 ==> linked[h] <= linked[x])
              && (linked[h] < 0x8_0000_0000 ==> linked[h] < 2 * linked[x])
  {
    hide BinIndex, LegalRunSize;
    forall x | x in linked && needed <= linked[x]
      ensures BinIndex(linked[h]) <= BinIndex(linked[x])
      ensures linked[h] < 4096 ==> linked[h] <= linked[x]
      ensures linked[h] < 0x8_0000_0000 ==> linked[h] < 2 * linked[x]
    {
      LowerBinBytes(linked[h], linked[x]);
    }
  }

  lemma BinsCount(mem: Memory, bins: seq<Addr>, lists: seq<seq<Addr>>, linked: map<Addr, nat>)
    requires BinsOk(mem, bins, lists, linked)
    ensures |bins| == |lists| == BIN_COUNT && SizesOk(linked)
  {
  }

  // The list of a bin that is not empty.
  lemma BinHead(mem: Memory, bins: seq<Addr>, lists: seq<seq<Addr>>, linked: map<Addr, nat>, idx: nat)
    requires BinsOk(mem, bins, lists, linked) && idx < BIN_COUNT && bins[idx] != 0
    ensures Dll(mem, bins[idx], lists[idx]) && lists[idx] != [] && lists[idx][0] == bins[idx] && bins[idx] in linked
    ensures forall j :: 0 <= j < |lists[idx]| ==> lists[idx][j] in linked && BinIndex(linked[lists[idx][j]]) == idx
    ensures forall j :: 0 <= j < |lists[idx]| ==> lists[idx][j] > 0
  {
    hide BinIndex, NodeOk, Spaced, Distinct, LegalRunSize;
    var s := lists[idx];
    forall j | 0 <= j < |s|
      ensures s[j] in linked && BinIndex(linked[s[j]]) == idx && s[j] > 0
    {
      var x: Addr := s[j];
      assert x in s;
    }
  }

  lemma IndexedDistinct(mem: Memory, bins: seq<Addr>, lists: seq<seq<Addr>>, linked: map<Addr, nat>, i: nat)
    requires BinsOk(mem, bins, lists, linked) && i < BIN_COUNT
    ensures Distinct(lists[i])
  {
  }

  lemma EmptyBin(mem: Memory, head: Addr, s: seq<Addr>)
    requires Dll(mem, head, s)
    ensures s != [] ==> head != 0
  {
    if s != [] {
      assert NodeOk(mem, s, 0);
    }
  }

  // The head of a bin above the start bin, or of a linear start bin, fits.
  lemma HeadFits(linked: map<Addr, nat>, needed: nat, h: Addr)
    requires SizesOk(linked) && h in linked && LegalRunSize(needed) && IsWord(needed)
    requires BinIndex(needed) <= BinIndex(linked[h])
    requires BinIndex(needed) != BinIndex(linked[h]) || BinIndex(needed) < LINEAR_BINS
    ensures needed <= linked[h]
  {
    hide BinIndex;
    if linked[h] < needed {
      BinMonotone(linked[h], needed);
    }
    if BinIndex(needed) == BinIndex(linked[h]) {
      LinearBinExact(needed, linked[h]);
    }
  }

  lemma NextInList(mem: Memory, head: Addr, s: seq<Addr>, k: nat)
    requires Dll(mem, head, s) && k < |s|
    ensures s[k] + NEXT in mem && mem[s[k] + NEXT] == if k + 1 < |s| then s[k + 1] else 0
  {
    assert NodeOk(mem, s, k);
  }

  class Allocator {
    const self: int
    const granularity: nat
    const canGrow: bool
    const system: System
    ghost const external: bool
    const bins: array<Addr>
    const mask: array<Word64>
    var mem: Memory
    var chunks: seq<Chunk>
    var nextGrowth: nat
    var deferred: nat
    var remoteHead: Addr
    var calls: nat
    ghost var runs: Runs
    ghost var lists: seq<seq<Addr>>
    ghost var parked: seq<Addr>

    /** Bins, lists and mask index exactly the runs of `linked`. */
    ghost predicate Indexed(linked: map<Addr, nat>)
      reads `mem, `lists, bins, mask
    {
      && bins.Length == BIN_COUNT && mask.Length == WORD_COUNT && bins as object != mask
      && BinsOk(mem, bins[..], lists, linked)
      && MaskOk(mask[..], bins[..])
    }

    /** Everything about memory, tiling, index and remote stack. */
    ghost predicate Sound()
      reads `mem, `lists, `runs, `chunks, `calls, `remoteHead, `parked, bins, mask
    {
      && self != 0
      && granularity > 0 && granularity % RUN_ALIGNMENT == 0 && IsWord(granularity)
      && Heap(runs, ChunkSet(chunks))
      && MemOk(mem, runs, ChunkSet(chunks), self)
      && Indexed(Free(runs))
      && Chain(mem, remoteHead, parked) && Distinct(parked) && AllLive(runs, parked)
      && SoundSystem(system, calls, ChunkSet(chunks))
    }

    /** Growth doubles, as RunnerState says, unless the memory is the caller's. */
    ghost predicate GrowthOk()
      reads `deferred, `chunks, `nextGrowth
    {
      && IsWord(nextGrowth) && IsWord(deferred)
      && (external ==> deferred == 0)
      && (!external ==> GrowthSound(chunks, nextGrowth, deferred))
    }

    /** What is owned is at least the oldest chunk doubled by every chunk that came after
        it, whatever operations brought them. */
    lemma GrowthIsGeometric()
      requires Valid() && !external && chunks != []
      ensures Owned(chunks) >= chunks[|chunks| - 1].bytes * Pow2(|chunks| - 1)
    {
      hide Sound;
      GeometricDoubles(chunks);
    }

    ghost predicate Valid()
      reads this, bins, mask
    {
      Sound() && GrowthOk()
    }

    /** What the runner knows, apart from the memory that spells it. */
    ghost function Knows(): Core
      reads `runs, `lists, `parked, `chunks, `nextGrowth, `deferred, `calls
    {
      Core(runs, lists, parked, chunks, nextGrowth, deferred, calls)
    }

    ghost function Where(): Site {
      Site(granularity, canGrow, system)
    }

    lemma GranularityOk()
      requires Sound()
      ensures granularity > 0 && granularity % RUN_ALIGNMENT == 0 && IsWord(granularity)
    {
    }

    lemma WordsKnown()
      requires Valid()
      ensures WordsOk(Where(), Knows())
    {
    }

    method LinkFree(h: Addr, ghost linked: map<Addr, nat>)
      requires Indexed(linked) && h !in linked && h in mem
      requires SizeField(mem[h]) >= 0
      requires Spaced(linked[h := SizeField(mem[h])]) && SizesOk(linked[h := SizeField(mem[h])])
      requires h + NEXT in mem && h + PREV in mem
      modifies this`mem, this`lists, bins, mask
      ensures Indexed(linked[h := SizeField(old(mem[h]))])
      ensures OnlyLinks(old(mem), mem, linked.Keys + {h})
      ensures LinkedIn(old(mem), old(bins[..]), old(mask[..]), mem, bins[..], mask[..], h, SizeField(old(mem[h])))
      ensures lists == ListsWith(old(lists), SizeField(old(mem[h])), h)
    {
      hide BinIndex, LegalRunSize, SizeField, WithMaskBit, MaskBit;
      ghost var size := SizeField(mem[h]);
      assert h in linked[h := size];
      BinInRange(size);
      ghost var oldMem, oldBins := mem, bins[..];
      assert |lists| == BIN_COUNT;
      var idx := BinIndex(SizeField(mem[h]));
      LinkKeeps(mem, bins[..], lists, linked, h, size);
      mem := mem[h + PREV := 0];
      mem := mem[h + NEXT := bins[idx]];
      if bins[idx] != 0 {
        mem := mem[bins[idx] + PREV := h];
      }
      assert mem == PushWords(oldMem, oldBins[idx], h);
      bins[idx] := h;
      lists := lists[idx := [h] + lists[idx]];
      AssignBit(mask, idx, true);
      assert bins[..] == oldBins[idx := h];
      assert LinkedIn(oldMem, oldBins, old(mask[..]), mem, bins[..], mask[..], h, size);
    }

    method UnlinkFree(h: Addr, ghost linked: map<Addr, nat>)
      requires Indexed(linked) && h in linked && h in mem
      requires SizeField(mem[h]) == linked[h]
      modifies this`mem, this`lists, bins, mask
      ensures Indexed(linked - {h})
      ensures OnlyLinks(old(mem), mem, linked.Keys)
      ensures lists == ListsWithout(old(lists), linked[h], h)
    {
      hide BinIndex, BinsOk, LegalRunSize, SizeField, WithMaskBit, MaskBit, OnlyLinks;
      ghost var oldMem, oldBins := mem, bins[..];
      ghost var k := Locate(mem, bins[..], lists, linked, h);
      UnlinkKeeps(mem, bins[..], lists, linked, h, k);
      var idx := BinIndex(SizeField(mem[h]));
      IndexedDistinct(mem, oldBins, lists, linked, idx);
      if mem[h + PREV] != 0 {
        mem := mem[mem[h + PREV] + NEXT := mem[h + NEXT]];
      } else {
        bins[idx] := mem[h + NEXT];
      }
      ghost var s := lists[idx];
      WithoutAt(s, k);
      lists := lists[idx := s[..k] + s[k + 1..]];
      if mem[h + NEXT] != 0 {
        mem := mem[mem[h + NEXT] + PREV := mem[h + PREV]];
      }
      assert mem == RemoveWords(oldMem, h);
      if bins[idx] == 0 {
        AssignBit(mask, idx, false);
      }
    }

    // Takes the free neighbours of `h` out of the index; they join the freed run.
    method AbsorbNeighbours(h: Addr) returns (current: Addr, currentSize: nat)
      requires Heap(runs, ChunkSet(chunks)) && MemOk(mem, runs, ChunkSet(chunks), self)
      requires Indexed(Free(runs)) && h in runs && !runs[h].free
      modifies this`mem, this`lists, bins, mask
      ensures current == ReleasedAt(runs, h) && currentSize == ReleasedSize(runs, h)
      ensures Indexed(StillLinked(runs, h))
      ensures lists == AbsorbedLists(runs, old(lists), h)
      ensures OnlyLinks(old(mem), mem, Free(runs).Keys)
      ensures MemOk(mem, runs, ChunkSet(chunks), self)
    {
      hide RunOk, Tiled, Coalesced, MemOk, BinsOk, MaskOk, Spaced, SizesOk, ListsWithout;
      hide Pack, SizeField, FreeFlag, PrevFlag, NextRun, PrevRun, OnlyLinks;
      current := h;
      ghost var m0, cs := mem, ChunkSet(chunks);
      Neighbours(mem, runs, cs, self, h);
      currentSize := SizeField(mem[current]);
      var next := NextRun(mem, current);
      ghost var linked := Free(runs);
      SameLinks(mem, Free(runs).Keys);
      if next != 0 && FreeFlag(mem[next]) {
        UnlinkFree(next, linked);
        linked := linked - {next};
        LinksKeep(m0, mem, runs, cs, self, Free(runs).Keys);
        Neighbours(mem, runs, cs, self, h);
        currentSize := currentSize + SizeField(mem[next]);
      }
      if PrevFlag(mem[current]) {
        var prev := PrevRun(mem, current);
        if prev != 0 && FreeFlag(mem[prev]) {
          ghost var m := mem;
          Neighbours(mem, runs, cs, self, prev);
          UnlinkFree(prev, linked);
          LinksTwice(m0, m, mem, Free(runs).Keys, linked.Keys);
          linked := linked - {prev};
          LinksKeep(m0, mem, runs, cs, self, Free(runs).Keys);
          Neighbours(mem, runs, cs, self, prev);
          current := prev;
          currentSize := currentSize + SizeField(mem[prev]);
        }
      }
      assert linked == StillLinked(runs, h);
    }

    // Header, footer and the next run's flag for a run that becomes free.
    method WriteFreeRun(current: Addr, size: nat, ghost h: Addr)
      requires Heap(runs, ChunkSet(chunks)) && MemOk(mem, runs, ChunkSet(chunks), self)
      requires h in runs && !runs[h].free && current == ReleasedAt(runs, h) && size == ReleasedSize(runs, h)
      modifies this`mem
      ensures size % 4 == 0 && current in old(mem)
      ensures current + size in runs ==> current + size in old(mem)
      ensures mem == ReleaseWrites(old(mem), runs, current, size)
    {
      hide RunOk, Tiled, Coalesced, Spaced, SizesOk, Pack, SizeField, FreeFlag, PrevFlag, MemOk;
      ghost var cs := ChunkSet(chunks);
      ReleaseFits(mem, runs, cs, self, h);
      ReleaseInterior(runs, cs, h);
      Neighbours(mem, runs, cs, self, current);
      ReleaseNext(mem, runs, cs, self, h);
      mem := mem[current := Pack(size, true, PrevFlag(mem[current]))];
      mem := mem[current + SizeField(mem[current]) - WORD_BYTES := SizeField(mem[current])];
      var nextAfter := NextRun(mem, current);
      if nextAfter != 0 {
        mem := mem[nextAfter := WithPrevFlag(mem[nextAfter], true)];
      }
    }

    /** Frees a run and joins it with its free neighbours. Parked runs and every
        other allocated payload are left alone, word for word. */
    method DeallocateBytes(p: Addr)
      requires Valid()
      requires p != 0 ==> p - HEADER_SIZE in runs && !runs[p - HEADER_SIZE].free && p - HEADER_SIZE !in parked
      modifies this`mem, this`lists, this`runs, bins, mask
      ensures Valid()
      ensures runs == if p == 0 then old(runs) else Release(old(runs), p - HEADER_SIZE)
      ensures Knows() == Freed(old(Knows()), p)
      ensures PayloadsKept(old(mem), mem, old(runs), p - HEADER_SIZE) && ElsewhereKept(old(mem), mem, ChunkSet(chunks))
    {
      hide SoundSystem, GrowthOk, LinkedIn, ListsWith, AbsorbedLists, ElsewhereKept;
      hide RunOk, Tiled, Coalesced, MemOk, BinsOk, MaskOk, Release, Chain, Distinct, AllLive, Spaced, SizesOk;
      hide ReleaseWrites, Confined, PayloadsKept, SizeField, OnlyLinks, ReleasedAt, ReleasedSize, StillLinked;
      hide ReleaseWords;
      if p == 0 {
        SameMemory(mem, runs, p - HEADER_SIZE);
        SameElsewhere(mem, ChunkSet(chunks));
        return;
      }
      ghost var h, m0, cs := p - HEADER_SIZE, mem, ChunkSet(chunks);
      SizesLegal(runs, cs);
      var current, currentSize := AbsorbNeighbours(p - HEADER_SIZE);
      ghost var m1 := mem;
      ReleaseFits(mem, runs, cs, self, h);
      WriteFreeRun(current, currentSize, h);
      ReleaseMiddle(m1, runs, cs, self, h, bins[..], lists);
      ReleaseHeader(m1, runs, current, currentSize);
      FreeAfterRelease(runs, cs, h);
      LinkFree(current, StillLinked(runs, h));
      ReleaseEnd(m0, m1, mem, runs, cs, self, h);
      ReleaseInMemory(m0, mem, runs, cs, self, h);
      ReleaseKeeps(runs, cs, h);
      ChainKept(m0, mem, runs, remoteHead, parked, h);
      LiveAfterRelease(runs, cs, h, parked);
      runs := Release(runs, h);
    }

    /** Best bin first: finds a free run that is large enough in the lowest bin
        that has one, and reports failure only when no free run is large enough.
        In bytes: below 4096 it is a smallest run that fits, and below 2^35 it is
        less than twice the size of any other that fits. */
    method FindFit(needed: nat) returns (h: Addr)
      requires Sound() && LegalRunSize(needed) && IsWord(needed)
      ensures h == 0 <==> NoFit(runs, needed)
      ensures h != 0 ==> h in Free(runs) && needed <= Free(runs)[h]
      ensures h != 0 ==> forall x :: x in Free(runs) && needed <= Free(runs)[x] ==>
                && BinIndex(Free(runs)[h]) <= BinIndex(Free(runs)[x])
                && (Free(runs)[h] < 4096 ==> Free(runs)[h] <= Free(runs)[x])
                && (Free(runs)[h] < 0x8_0000_0000 ==> Free(runs)[h] < 2 * Free(runs)[x])
      ensures h == Search(Knows(), needed)
    {
      hide Tiled, Coalesced, MemOk, BinIndex, MaskBit, BinsOk, Dll, LegalRunSize, Distinct, SoundSystem, Chain, AllLive;
      hide SmallBelow, BestFit, FirstFit, SizesOk;
      ghost var linked, cs := Free(runs), ChunkSet(chunks);
      BinsCount(mem, bins[..], lists, linked);
      BinInRange(needed);
      var startBin := BinIndex(needed);
      var idx := FirstNonemptyFrom(mask, startBin);
      SmallBelowStart(linked, needed);
      SmallBelowFound(mem, bins[..], lists, linked, mask[..], needed, startBin, idx);
      SkipEmpty(mem, bins[..], lists, linked, mask[..], runs, needed, startBin, idx);
      while idx < BIN_COUNT
        invariant startBin <= idx <= BIN_COUNT
        invariant BestFit(runs, lists, needed, startBin) == BestFit(runs, lists, needed, idx)
        invariant idx < BIN_COUNT ==> bins[idx] != 0
        invariant SmallBelow(linked, needed, idx)
      {
        BinHead(mem, bins[..], lists, linked, idx);
        if idx != startBin || idx < LINEAR_BINS {
          HeadFits(linked, needed, bins[idx]);
          HeadIsBest(runs, lists, needed, idx);
          LowestBin(linked, needed, idx, bins[idx]);
          return bins[idx];
        }
        h := bins[idx];
        ghost var s, k := lists[idx], 0;
        assert s[0..] == s;
        while h != 0
          invariant 0 <= k <= |s|
          invariant h == if k < |s| then s[k] else 0
          invariant forall j :: 0 <= j < k ==> s[j] in linked && linked[s[j]] < needed
          invariant FirstFit(runs, s, needed) == FirstFit(runs, s[k..], needed)
          decreases |s| - k
        {
          Neighbours(mem, runs, cs, self, h);
          NextTried(runs, s, needed, k);
          if SizeField(mem[h]) >= needed {
            FitIsBest(runs, lists, needed, idx);
            LowestBin(linked, needed, idx, h);
            return h;
          }
          NextInList(mem, bins[idx], s, k);
          h := mem[h + NEXT];
          k := k + 1;
        }
        NoneInBin(runs, lists, needed, idx);
        SmallBelowScanned(bins[..], lists, mem, linked, needed, idx);
        ghost var from := idx + 1;
        idx := FirstNonemptyFrom(mask, idx + 1);
        SmallBelowFound(mem, bins[..], lists, linked, mask[..], needed, from, idx);
        SkipEmpty(mem, bins[..], lists, linked, mask[..], runs, needed, from, idx);
      }
      h := 0;
      NoBinFits(mem, bins[..], lists, linked, runs, needed, idx);
    }

    // Cuts the remainder off a run that is being granted and indexes it.
    method CutRemainder(h: Addr, total: nat, needed: nat, prevFree: bool, ghost linked: map<Addr, nat>)
      requires MemOk(mem, runs, ChunkSet(chunks), self) && Grantable(runs, ChunkSet(chunks), h, total, needed)
      requires LinkedOutside(runs, linked, h, h + total) && Indexed(linked) && Splits(total, needed)
      modifies this`mem, this`lists, bins, mask
      ensures needed % 4 == 0 && total % 4 == 0
      ensures Indexed(linked[h + needed := total - needed])
      ensures OnlyLinks(GrantHeaders(old(mem), h, total, needed, prevFree), mem, linked.Keys + {h + needed})
      ensures lists == ListsWith(old(lists), total - needed, h + needed)
    {
      hide RunOk, Tiled, MemOk, BinsOk, MaskOk, Spaced, SizesOk, LegalRunSize, Cuts, OnlyLinks, LinkedOutside, LinkedIn;
      hide ListsWith;
      ghost var cs := ChunkSet(chunks);
      GrantFits(mem, runs, cs, self, h, total, needed);
      LinkedApart(runs, cs, linked, h, total, needed);
      GrantHeadersKeepBins(mem, bins[..], lists, linked, h, total, needed, prevFree);
      var remSize := total - needed;
      mem := mem[h := Pack(needed, false, prevFree)];
      var rem := h + needed;
      mem := mem[rem := Pack(remSize, true, false)];
      mem := mem[rem + SizeField(mem[rem]) - WORD_BYTES := SizeField(mem[rem])];
      assert mem == GrantHeaders(old(mem), h, total, needed, prevFree);
      BinsSpaced(mem, bins[..], lists, linked);
      RemainderIndexable(runs, cs, linked, h, total, needed);
      LinkFree(rem, linked);
    }

    // Tells the next run whether a free run now precedes it, and stamps the owner.
    method FinishGrant(h: Addr, last: Addr, total: nat, needed: nat, ghost linked: map<Addr, nat>)
      requires Indexed(linked) && MIN_RUN <= needed <= total && total >= MIN_RUN
      requires last == if Splits(total, needed) then h + needed else h
      requires forall f {:trigger f in linked} :: f in linked ==>
                 f + MIN_RUN <= h || h + total < f || (f == h + needed && Splits(total, needed))
      requires last in mem && SizeField(mem[last]) == h + total - last && h + total in mem
      requires h + total in runs ==> h + total != 0 && SizeField(mem[h + total]) != 0
      requires h + total !in runs ==> SizeField(mem[h + total]) == 0
      modifies this`mem
      ensures mem == GrantTail(old(mem), runs, self, h, total, needed)
      ensures Indexed(linked)
    {
      hide BinsOk, MaskOk, SizeField;
      GrantTailKeepsBins(mem, bins[..], lists, linked, runs, self, h, total, needed);
      var next := NextRun(mem, last);
      if next != 0 {
        mem := mem[next := WithPrevFlag(mem[next], last != h)];
      }
      mem := mem[h + WORD_BYTES := self];
    }

    // Makes [h, h + total) an allocated run, cutting off the remainder as a free
    // run when it is large enough. The free runs of that range are unlinked.
    method GrantRun(h: Addr, total: nat, needed: nat, prevFree: bool, ghost linked: map<Addr, nat>)
      requires MemOk(mem, runs, ChunkSet(chunks), self) && Grantable(runs, ChunkSet(chunks), h, total, needed)
      requires LinkedOutside(runs, linked, h, h + total) && Indexed(linked)
      requires prevFree == PrevFree(runs, h)
      modifies this`mem, this`lists, bins, mask
      ensures Indexed(if Splits(total, needed) then linked[h + needed := total - needed] else linked)
      ensures Confined(old(mem), mem, runs, h, h + total)
      ensures GrantWords(mem, runs, self, h, total, needed)
      ensures lists == CutLists(old(lists), h, total, needed)
      ensures SameWords(old(mem), mem, h + HEADER_SIZE, h + needed)
    {
      hide RunOk, Tiled, MemOk, BinsOk, MaskOk, Spaced, SizesOk, Confined, LegalRunSize, Cuts, OnlyLinks, GrantWords;
      hide LinkedOutside, GrantTail, SameWords, ListsWith;
      ghost var m1, cs := mem, ChunkSet(chunks);
      GrantFits(mem, runs, cs, self, h, total, needed);
      LinkedApart(runs, cs, linked, h, total, needed);
      if total - needed >= MIN_RUN + SPLIT_THRESHOLD {
        CutRemainder(h, total, needed, prevFree, linked);
        GrantNextKept(m1, mem, linked.Keys, h, total, needed, prevFree);
        GrantEnd(m1, mem, runs, cs, linked, self, h, total, needed);
        GrantPayloadKept(m1, mem, linked.Keys, runs, self, h, total, needed, prevFree);
        FinishGrant(h, h + needed, total, needed, linked[h + needed := total - needed]);
      } else {
        GrantHeadersKeepBins(mem, bins[..], lists, linked, h, total, needed, prevFree);
        mem := mem[h := Pack(total, false, prevFree)];
        GrantNextKept(m1, mem, linked.Keys, h, total, needed, prevFree);
        GrantEnd(m1, mem, runs, cs, linked, self, h, total, needed);
        GrantPayloadKept(m1, mem, linked.Keys, runs, self, h, total, needed, prevFree);
        FinishGrant(h, h, total, needed, linked);
      }
    }

    /** Takes `needed` bytes from the free run `h`. */
    method AllocateFromFreeRun(h: Addr, needed: nat) returns (p: Addr)
      requires Sound() && h in runs && runs[h].free
      requires LegalRunSize(needed) && needed <= runs[h].size
      modifies this`mem, this`lists, this`runs, bins, mask
      ensures Sound() && p == h + HEADER_SIZE
      ensures runs == Carve(old(runs), h, needed)
      ensures Knows() == Carved(old(Knows()), h, needed)
      ensures PayloadsKept(old(mem), mem, old(runs), h) && ElsewhereKept(old(mem), mem, ChunkSet(chunks))
    {
      hide SoundSystem, GrowthOk, CutLists, ListsWithout, ElsewhereKept;
      hide RunOk, Tiled, Coalesced, MemOk, BinsOk, MaskOk, Carve, Chain, Distinct, AllLive, Spaced, SizesOk;
      hide LegalRunSize;
      hide Confined, PayloadsKept, SizeField, PrevFlag, OnlyLinks, GrantWords, Granted, Cuts, Grantable;
      ghost var m0, cs := mem, ChunkSet(chunks);
      Neighbours(mem, runs, cs, self, h);
      SizesLegal(runs, cs);
      CarveGrantable(runs, cs, h, needed);
      var oldSize := SizeField(mem[h]);
      var prevFree := PrevFlag(mem[h]);
      UnlinkFree(h, Free(runs));
      ghost var linked, m1 := Free(runs) - {h}, mem;
      LinksKeep(m0, mem, runs, cs, self, Free(runs).Keys);
      GrantRun(h, oldSize, needed, prevFree, linked);
      ConfinedAfterLinks(m0, m1, mem, runs, h, h + oldSize);
      CarveShape(runs, cs, h, needed);
      GrantInMemory(m0, mem, runs, Carve(runs, h, needed), cs, self, h, oldSize, needed);
      CarveKeeps(runs, cs, h, needed);
      FreeAfterGrant(runs, Carve(runs, h, needed), linked, h, oldSize, needed);
      FreeIsNotParked(runs, parked, h);
      ChainKept(m0, mem, runs, remoteHead, parked, h);
      LiveAfterGrant(runs, Carve(runs, h, needed), parked, h);
      runs := Carve(runs, h, needed);
      p := h + HEADER_SIZE;
    }

    // Takes the free run `next` and grants `needed` of the combined bytes to `current`.
    method StretchRun(current: Addr, next: Addr, combined: nat, needed: nat)
      requires current in runs && !runs[current].free && current !in parked && NextFree(runs, current)
      requires next == current + runs[current].size && combined == runs[current].size + runs[next].size
      requires LegalRunSize(needed) && runs[current].size <= needed <= combined
      requires Sound()
      modifies this`mem, this`lists, this`runs, bins, mask
      ensures runs == Stretch(old(runs), current, needed)
      ensures current in runs && !runs[current].free && runs[current].size == GrantedSize(combined, needed)
      ensures Live(runs) == Live(old(runs))[current := GrantedSize(combined, needed)]
      ensures Knows() == Stretched(old(Knows()), current, needed)
      ensures PayloadsKept(old(mem), mem, old(runs), current) && ElsewhereKept(old(mem), mem, ChunkSet(chunks))
      ensures SameWords(old(mem), mem, current + HEADER_SIZE, current + old(runs)[current].size)
      ensures Sound()
    {
      hide SoundSystem, GrowthOk, CutLists, ListsWithout, ElsewhereKept;
      hide RunOk, Tiled, Coalesced, MemOk, BinsOk, MaskOk, Stretch, Chain, Distinct, AllLive, Spaced, SizesOk;
      hide LegalRunSize;
      hide Confined, PayloadsKept, SizeField, PrevFlag, OnlyLinks, GrantWords, Granted, Cuts, Grantable, SameWords;
      hide LinkedOutside;
      ghost var m0, cs := mem, ChunkSet(chunks);
      SizesLegal(runs, cs);
      Neighbours(mem, runs, cs, self, current);
      StretchGrantable(runs, cs, current, needed);
      var prevFree := PrevFlag(mem[current]);
      UnlinkFree(next, Free(runs));
      ghost var linked, m1 := Free(runs) - {next}, mem;
      LinksKeep(m0, mem, runs, cs, self, Free(runs).Keys);
      LinksKeepPayload(m0, m1, runs, cs, current);
      GrantRun(current, combined, needed, prevFree, linked);
      SameWordsTwice(m0, m1, mem, current + HEADER_SIZE, current + runs[current].size, current + needed);
      ConfinedAfterLinks(m0, m1, mem, runs, current, current + combined);
      StretchShape(runs, cs, current, needed);
      ghost var runs' := Stretch(runs, current, needed);
      GrantInMemory(m0, mem, runs, runs', cs, self, current, combined, needed);
      StretchKeeps(runs, cs, current, needed);
      FreeAfterGrant(runs, runs', linked, current, combined, needed);
      ChainKept(m0, mem, runs, remoteHead, parked, current);
      LiveAfterGrant(runs, runs', parked, current);
      assert current in Live(runs);
      runs := runs';
      assert Live(runs)[current] == runs[current].size;
    }

    // A fresh chunk becomes one free run, ended by an epilogue.
    method InitializeFreeRun(c: Chunk, words: Memory)
      requires Heap(runs, ChunkSet(chunks)) && MemOk(mem, runs, ChunkSet(chunks), self) && Indexed(Free(runs))
      requires ChunkOk(c) && forall d :: d in ChunkSet(chunks) ==> Apart(c, d)
      requires forall w :: w in words <==> WordOf(c, w)
      modifies this`mem, this`lists, this`runs, bins, mask
      ensures runs == WithChunk(old(runs), c)
      ensures Heap(runs, ChunkSet(chunks) + {c}) && MemOk(mem, runs, ChunkSet(chunks) + {c}, self)
      ensures Indexed(Free(runs))
      ensures PayloadsKept(old(mem), mem, old(runs), 0) && ElsewhereKept(old(mem), mem, ChunkSet(chunks) + {c})
      ensures ChunkInstalled(old(mem), old(bins[..]), old(mask[..]), mem, bins[..], mask[..], c, words)
      ensures lists == ListsWith(old(lists), c.bytes - EPILOGUE_SIZE, c.begin)
    {
      hide RunOk, Tiled, Coalesced, MemOk, BinsOk, MaskOk, Confined, PayloadsKept, Spaced, SizesOk, ChunkWords;
      hide OnlyLinks, WithChunk, Apart, LinkedIn, ListsWith, ElsewhereKept;
      ghost var m0, cs := mem, ChunkSet(chunks);
      ChunkLinkable(m0, words, runs, cs, c, bins[..], lists);
      LegalMultipleOfChunk(c);
      mem := mem + words;
      var h := c.begin;
      var runBytes := c.bytes - EPILOGUE_SIZE;
      mem := mem[h := Pack(runBytes, true, false)];
      mem := mem[h + SizeField(mem[h]) - WORD_BYTES := SizeField(mem[h])];
      assert mem == ChunkHeaders(m0 + words, c);
      assert WordOf(c, h + NEXT) && WordOf(c, h + PREV) by { AlignedWords(h); }
      LinkFree(h, Free(runs));
      ghost var m3 := mem;
      ChunkEnd(m0, words, mem, runs, cs, self, c, bins[..], lists);
      var epilogue := c.begin + runBytes;
      mem := mem[epilogue := Pack(0, false, true)];
      mem := mem[epilogue + WORD_BYTES := 0];
      InstalledBy(m0, old(bins[..]), old(mask[..]), m3, bins[..], mask[..], c, words);
      ChunkInMemory(m0, mem, runs, cs, self, c);
      ChunkKeeps(runs, cs, c);
      runs := WithChunk(runs, c);
    }

    /** Asks the system for a chunk of at least `bytes`, rounded to whole pages. None
        stands for std::bad_alloc, and then the heap is as it was. */
    method AddOwnedChunk(bytes: nat) returns (got: Option<nat>)
      requires Sound() && IsWord(bytes)
      modifies this`mem, this`lists, this`runs, this`chunks, this`calls, bins, mask
      ensures Sound()
      ensures got.None? ==>
                && chunks == old(chunks) && runs == old(runs) && mem == old(mem)
                && lists == old(lists) && bins[..] == old(bins[..]) && mask[..] == old(mask[..])
      ensures got.Some? ==>
                && OwnedChunkBytes(bytes, granularity) == got
                && |chunks| == |old(chunks)| + 1 && chunks[1..] == old(chunks) && chunks[0].bytes == got.value
                && got.value >= Max(bytes, MIN_CHUNK) && IsWord(got.value)
                && ChunkOk(chunks[0]) && chunks[0].begin !in old(runs)
                && runs == WithChunk(old(runs), chunks[0])
                && Live(runs) == Live(old(runs))
      ensures got.None? <==> Refused(Where(), old(calls), bytes)
      ensures calls == old(calls) + (if OwnedChunkBytes(bytes, granularity).Some? then 1 else 0)
      ensures WordsOk(Where(), old(Knows())) ==> (Knows(), got.Some?) == AddedChunk(Where(), old(Knows()), bytes)
      ensures PayloadsKept(old(mem), mem, old(runs), 0) && ElsewhereKept(old(mem), mem, ChunkSet(chunks))
      ensures got.Some? ==> Installed(old(calls), got.value, old(mem), old(bins[..]), old(mask[..]))
    {
      hide RunOk, Tiled, Coalesced, MemOk, Indexed, PayloadsKept, ChunkInstalled, Chain, Distinct, AllLive, GrowthOk;
      hide WithChunk, SoundSystem, ListsWith, ElsewhereKept;
      ghost var m0, runs0, cs := mem, runs, ChunkSet(chunks);
      SameMemory(mem, runs, 0);
      SameElsewhere(mem, cs);
      var size := OwnedChunkBytes(bytes, granularity);
      if size.None? {
        return None;
      }
      ChunkBytesLegal(bytes, granularity);
      var arena := system(calls, size.value);
      ArenaFits(system, calls, cs, size.value);
      LaterCalls(system, calls, cs, size.value);
      calls := calls + 1;
      if arena.None? {
        return None;
      }
      var c := Chunk(arena.value.base, size.value);
      InitializeFreeRun(c, arena.value.words);
      chunks := [c] + chunks;
      assert ChunkSet(chunks) == cs + {c} by { ChunkSetCons(c, chunks[1..]); }
      SizesLegal(runs0, cs);
      ZeroIsNotParked(runs0, cs, parked);
      ChunkKeeps(runs0, cs, c);
      ChainKept(m0, mem, runs0, remoteHead, parked, 0);
      LiveAfterGrant(runs0, runs, parked, 0);
      got := size;
    }

    /** Grows by at least the need, and by at least what is owned already. */
    method GrowFor(needed: nat) returns (grown: bool)
      requires Valid() && canGrow && LegalRunSize(needed) && IsWord(needed)
      requires deferred == 0
      modifies this`mem, this`lists, this`runs, this`chunks, this`calls, this`nextGrowth, bins, mask
      ensures Valid()
      ensures !grown ==>
                && chunks == old(chunks) && runs == old(runs) && mem == old(mem)
                && lists == old(lists) && bins[..] == old(bins[..]) && mask[..] == old(mask[..])
      ensures grown ==>
                && |chunks| == |old(chunks)| + 1 && chunks[1..] == old(chunks) && chunks[0].bytes >= MIN_CHUNK
                && chunks[0].begin !in old(runs) && runs == WithChunk(old(runs), chunks[0])
                && chunks[0].begin in Free(runs) && Free(runs)[chunks[0].begin] >= needed
                && Live(runs) == Live(old(runs))
      ensures grown && !external ==> Owned(chunks) >= 2 * Owned(old(chunks))
      ensures grown ==>
                && granularity > 0 && LeastMultipleFrom(chunks[0].bytes, Max(old(nextGrowth), needed + 64), granularity)
                && nextGrowth == if IsWord(2 * chunks[0].bytes) then 2 * chunks[0].bytes else MAX_WORD
      ensures IsWord(granularity) && IsWord(old(nextGrowth))
      ensures !grown <==> GrowRefused(Where(), old(calls), old(nextGrowth), needed)
      ensures WordsOk(Where(), old(Knows())) && (Knows(), grown) == Grown(Where(), old(Knows()), needed)
      ensures PayloadsKept(old(mem), mem, old(runs), 0) && ElsewhereKept(old(mem), mem, ChunkSet(chunks))
    {
      hide Sound, Heap, MemOk, Indexed, Chain, Distinct, AllLive, SoundSystem, RunOk, Installed, ChunkInstalled;
      hide PayloadsKept, LegalRunSize, Pow2, Doubled, OwnedChunkBytes, ChunkOk, ElsewhereKept, AddedChunk;
      hide LeastMultipleFrom;
      GranularityOk();
      SameMemory(mem, runs, 0);
      SameElsewhere(mem, ChunkSet(chunks));
      var withOverhead := CheckedAdd(needed, MIN_CHUNK);
      if withOverhead.None? {
        return false;
      }
      var got := AddOwnedChunk(Max(nextGrowth, withOverhead.value));
      if got.None? {
        return false;
      }
      ghost var before := nextGrowth;
      GrowRefusedMeans(Where(), old(calls), nextGrowth, needed);
      nextGrowth := Doubled(got.value);
      DoubledSize(got.value);
      if !external {
        SaturatedGrowthFails(granularity, Max(before, withOverhead.value));
        assert Owned(chunks) == got.value + Owned(chunks[1..]);
      }
      grown := true;
    }

    /** The latest chunk is the region of call k, and memory, bins and mask are what
        installing it made of the ones before. */
    ghost predicate Installed(k: nat, bytes: nat, mem0: Memory, bins0: seq<Addr>, mask0: seq<Word64>)
      reads `mem, `chunks, bins, mask
    {
      && chunks != [] && system(k, bytes).Some?
      && chunks[0] == Chunk(system(k, bytes).value.base, bytes)
      && ChunkInstalled(mem0, bins0, mask0, mem, bins[..], mask[..], chunks[0], system(k, bytes).value.words)
    }

    /** Not a chunk yet, no memory, every bin empty. */
    ghost predicate Blank()
      reads this, bins, mask
    {
      && chunks == [] && runs == map[] && parked == [] && remoteHead == 0 && mem == map[] && calls == 0
      && bins[..] == NoBins() && mask[..] == NoBits() && lists == seq(BIN_COUNT, _ => [])
    }

    // A runner without any chunk.
    constructor (self: int, granularity: nat, canGrow: bool, system: System, nextGrowth: nat, deferred: nat,
                 ghost external: bool)
      requires self != 0 && granularity > 0 && granularity % RUN_ALIGNMENT == 0 && IsWord(granularity)
      requires SoundSystem(system, 0, {})
      ensures Sound() && fresh(bins) && fresh(mask)
      ensures this.self == self && this.granularity == granularity && this.canGrow == canGrow && this.system == system
      ensures this.nextGrowth == nextGrowth && this.deferred == deferred && this.external == external
      ensures Blank()
    {
      this.self, this.granularity, this.canGrow, this.system := self, granularity, canGrow, system;
      this.external := external;
      this.nextGrowth, this.deferred := nextGrowth, deferred;
      bins := new Addr[BIN_COUNT](_ => 0);
      mask := new Word64[WORD_COUNT](_ => 0);
      mem, chunks, runs, parked := map[], [], map[], [];
      lists := seq(BIN_COUNT, _ => []);
      remoteHead, calls := 0, 0;
      new;
      EmptyIndex();
      assert ChunkSet(chunks) == {};
    }

    lemma EmptyIndex()
      requires bins.Length == BIN_COUNT && mask.Length == WORD_COUNT && bins as object != mask
      requires |lists| == BIN_COUNT && mem == map[]
      requires forall i :: 0 <= i < BIN_COUNT ==> bins[i] == 0 && lists[i] == []
      requires forall i :: 0 <= i < WORD_COUNT ==> mask[i] == 0
      ensures Indexed(map[])
    {
      hide BinIndex, Bit;
      forall i | 0 <= i < BIN_COUNT
        ensures !MaskBit(mask[..], i) && Dll(mem, bins[..][i], lists[i])
      {
        ZeroHasNoBits(i % WORD_BITS);
      }
    }

    /** The eager constructor; None where it throws. */
    static method Eager(self: int, granularity: nat, canGrow: bool, system: System, initialBytes: nat)
      returns (r: Option<Allocator>)
      requires self != 0 && granularity > 0 && granularity % RUN_ALIGNMENT == 0 && IsWord(granularity)
      requires SoundSystem(system, 0, {}) && IsWord(initialBytes)
      ensures r.Some? ==> fresh(r.value) && fresh(r.value.bins) && fresh(r.value.mask) && r.value.Valid()
      ensures r.Some? ==> r.value.AsConstructed(initialBytes)
      ensures r.Some? ==> r.value.self == self && r.value.granularity == granularity
      ensures r.Some? ==> r.value.canGrow == canGrow && r.value.system == system
      ensures var n := OwnedChunkBytes(initialBytes, granularity);
              r.None? <==> n.None? || system(0, n.value).None?
      ensures r.Some? <==> EagerCore(Site(granularity, canGrow, system), initialBytes).1
      ensures r.Some? ==> r.value.Knows() == EagerCore(r.value.Where(), initialBytes).0
    {
      hide FirstChunked, SoundSystem, Heap, MemOk, Chain, RunOk, OwnedChunkBytes, AllLive, Distinct, BinsOk, MaskOk;
      hide ChunkInstalled, Pow2, SizesOk;
      var runner := new Allocator(self, granularity, canGrow, system, Max(initialBytes, 65536), 0, false);
      var added := runner.InstallFirstChunk(initialBytes);
      r := if added then Some(runner) else None;
    }

    /** The constructor over caller-supplied memory; None where it throws. */
    static method FromBacking(self: int, granularity: nat, canGrow: bool, system: System, data: Addr, size: nat,
                              words: Memory) returns (r: Option<Allocator>)
      requires self != 0 && granularity > 0 && granularity % RUN_ALIGNMENT == 0 && IsWord(granularity)
      requires data > 0 && IsWord(data + size)
      requires forall c :: FitBacking(data, size) == Some(c) ==>
                 SoundSystem(system, 0, {c}) && forall w :: w in words <==> WordOf(c, w)
      requires SoundSystem(system, 0, {})
      ensures r.Some? <==> FitBacking(data, size).Some?
      ensures r.Some? ==> fresh(r.value) && fresh(r.value.bins) && fresh(r.value.mask) && r.value.Valid()
      ensures r.Some? ==> r.value.self == self && r.value.granularity == granularity && r.value.canGrow == canGrow
      ensures r.Some? ==> r.value.system == system && r.value.external
      ensures r.Some? ==> r.value.AsBacked(FitBacking(data, size).value, words)
    {
      hide SoundSystem, Heap, MemOk, Chain, RunOk, AllLive, Distinct, ChunkInstalled;
      BackingFits(data, size);
      var c := FitBacking(data, size);
      if c.None? {
        return None;
      }
      var runner := new Allocator(self, granularity, canGrow, system, 0, 0, true);
      runner.InstallBacking(c.value, words);
      r := Some(runner);
    }

    /** The state of a runner over caller-supplied memory: the chunk is one free run, the
        system has not been asked for anything, and nothing is deferred. */
    ghost predicate AsBacked(c: Chunk, words: Memory)
      reads this, bins, mask
    {
      && chunks == [c] && c.bytes >= MIN_CHUNK
      && runs == map[c.begin := Run(c.bytes - EPILOGUE_SIZE, true, 0, c)]
      && lists == ListsWith(seq(BIN_COUNT, _ => []), c.bytes - EPILOGUE_SIZE, c.begin)
      && nextGrowth == 0 && deferred == 0 && calls == 0 && parked == [] && remoteHead == 0
      && ChunkInstalled(map[], NoBins(), NoBits(), mem, bins[..], mask[..], c, words)
    }

    method InstallBacking(c: Chunk, words: Memory)
      requires Sound() && external && Blank() && nextGrowth == 0 && deferred == 0 && ChunkOk(c)
      requires SoundSystem(system, calls, {c}) && forall w :: w in words <==> WordOf(c, w)
      modifies this`mem, this`lists, this`runs, this`chunks, bins, mask
      ensures Sound() && AsBacked(c, words)
    {
      hide SoundSystem, Heap, MemOk, Indexed, Chain, RunOk, PayloadsKept, ChunkInstalled, ListsWith;
      assert ChunkSet(chunks) == {};
      InitializeFreeRun(c, words);
      ChunkSetCons(c, chunks);
      assert ChunkSet(chunks) + {c} == {c};
      chunks := [c] + chunks;
      EmptyChain(mem);
    }

    /** The lazy constructor defers the first chunk to the first failed search. */
    static method Lazy(self: int, granularity: nat, canGrow: bool, system: System, initialBytes: nat)
      returns (runner: Allocator)
      requires self != 0 && granularity > 0 && granularity % RUN_ALIGNMENT == 0 && IsWord(granularity)
      requires SoundSystem(system, 0, {}) && IsWord(initialBytes)
      ensures fresh(runner) && runner.Valid()
      ensures runner.Blank() && runner.deferred == Max(initialBytes, 1) && !runner.external
      ensures runner.nextGrowth == Max(initialBytes, 65536)
      ensures runner.Knows() == LazyCore(initialBytes)
      ensures runner.self == self && runner.granularity == granularity && runner.canGrow == canGrow
      ensures runner.system == system
    {
      hide Heap, MemOk, Chain, RunOk;
      runner := new Allocator(self, granularity, canGrow, system, Max(initialBytes, 65536), Max(initialBytes, 1),
          false);
    }

    /** The state right after the first chunk: one free run, and the first grow will
        ask for that chunk's size, not for twice as much. */
    ghost predicate AsConstructed(initialBytes: nat)
      requires IsWord(initialBytes) && IsWord(granularity)
      reads this, bins, mask
    {
      && |chunks| == 1 && OwnedChunkBytes(initialBytes, granularity) == Some(chunks[0].bytes)
      && chunks[0].bytes >= MIN_CHUNK
      && runs == map[chunks[0].begin := Run(chunks[0].bytes - EPILOGUE_SIZE, true, 0, chunks[0])]
      && nextGrowth == chunks[0].bytes && deferred == 0
      && parked == [] && calls == 1 && !external && remoteHead == 0
      && Installed(0, chunks[0].bytes, map[], NoBins(), NoBits())
    }

    // The search of `allocate_bytes` in memory already owned: the heap as it is, and
    // only if that fails, the heap with the parked runs freed.
    method FindOwned(needed: nat) returns (h: Addr)
      requires Valid() && LegalRunSize(needed) && IsWord(needed)
      modifies this`mem, this`lists, this`runs, this`remoteHead, this`parked, bins, mask
      ensures Valid()
      ensures h == 0 <==> NoFit(runs, needed)
      ensures h != 0 ==> h in Free(runs) && needed <= Free(runs)[h]
      ensures if NoFit(old(runs), needed)
              then runs == ReleaseAll(old(runs), old(parked)) && parked == [] &&
                  Live(runs) == Live(old(runs)) - Elements(old(parked))
              else runs == old(runs) && parked == old(parked) && mem == old(mem)
      ensures NoFit(old(runs), needed) <==> Search(old(Knows()), needed) == 0
      ensures Knows() == if NoFit(old(runs), needed) then Drained(old(Knows())) else old(Knows())
      ensures h == Search(Knows(), needed)
      ensures OtherPayloadsKept(old(mem), mem, old(runs), old(parked)) && ElsewhereKept(old(mem), mem, ChunkSet(chunks))
    {
      hide ElsewhereKept, Search, ReplayedLists, Sound, Heap, MemOk, Indexed, Chain, Distinct, AllLive, SoundSystem;
      hide RunOk, Tiled, Coalesced, GrowthOk;
      hide OtherPayloadsKept, LegalRunSize, ReleaseAll, NoFit, BinIndex;
      NothingKept(mem, runs, parked);
      SameElsewhere(mem, ChunkSet(chunks));
      DrainedNothing(runs, lists, parked);
      h := FindFit(needed);
      if h == 0 {
        var drained := DrainRemote();
        if drained {
          h := FindFit(needed);
        }
      }
    }

    // The first chunk, made by the eager constructor and by the first failed search
    // of a lazily constructed runner alike.
    method InstallFirstChunk(bytes: nat) returns (added: bool)
      requires Sound() && !external && chunks == [] && IsWord(bytes) && IsWord(nextGrowth) && IsWord(granularity)
      modifies this`mem, this`lists, this`runs, this`chunks, this`calls, this`nextGrowth, this`deferred, bins, mask
      ensures Sound()
      ensures !added ==>
                && deferred == old(deferred) && nextGrowth == old(nextGrowth)
                && chunks == old(chunks) && runs == old(runs) && mem == old(mem)
                && lists == old(lists) && bins[..] == old(bins[..]) && mask[..] == old(mask[..])
      ensures added ==>
                && GrowthOk() && deferred == 0
                && |chunks| == 1 && OwnedChunkBytes(bytes, granularity) == Some(chunks[0].bytes) &&
                   chunks[0].bytes >= MIN_CHUNK
                && runs == WithChunk(old(runs), chunks[0])
                && nextGrowth == chunks[0].bytes
                && Installed(old(calls), chunks[0].bytes, old(mem), old(bins[..]), old(mask[..]))
      ensures calls == old(calls) + (if OwnedChunkBytes(bytes, granularity).Some? then 1 else 0)
      ensures !added <==> Refused(Where(), old(calls), bytes)
      ensures Live(runs) == Live(old(runs))
      ensures WordsOk(Where(), old(Knows())) ==> (Knows(), added) == FirstChunked(Where(), old(Knows()), bytes)
      ensures PayloadsKept(old(mem), mem, old(runs), 0) && ElsewhereKept(old(mem), mem, ChunkSet(chunks))
    {
      hide Sound, Heap, MemOk, Indexed, Chain, Distinct, AllLive, SoundSystem, RunOk, ChunkOk;
      hide PayloadsKept, Pow2, OwnedChunkBytes, WithChunk, ChunkInstalled, ElsewhereKept, AddedChunk;
      var got := AddOwnedChunk(bytes);
      if got.None? {
        return false;
      }
      nextGrowth := got.value;
      deferred := 0;
      assert chunks[1..] == [] && Owned(chunks[1..]) == 0;
      added := true;
    }

    // The last resort of the search: one grow, if the runner may.
    method FindByGrowing(needed: nat) returns (h: Addr, thrown: bool)
      requires Valid() && LegalRunSize(needed) && IsWord(needed) && deferred == 0 && NoFit(runs, needed)
      modifies this`mem, this`lists, this`runs, this`chunks, this`calls, this`nextGrowth, bins, mask
      ensures Valid() && WordsOk(Where(), old(Knows()))
      ensures (Knows(), h, thrown) == FoundByGrowing(Where(), old(Knows()), needed)
      ensures thrown <==> canGrow && GrowRefused(Where(), old(calls), old(nextGrowth), needed)
      ensures !thrown && h == 0 <==> !canGrow
      ensures if canGrow && !thrown then h in Free(runs) && needed <= Free(runs)[h] else NoFit(runs, needed)
      ensures |chunks| == |old(chunks)| + (if canGrow && !thrown then 1 else 0)
      ensures Live(runs) == Live(old(runs)) && parked == old(parked) && ChunkSet(old(chunks)) <= ChunkSet(chunks)
      ensures PayloadsKept(old(mem), mem, old(runs), 0) && ElsewhereKept(old(mem), mem, ChunkSet(chunks))
    {
      hide ElsewhereKept, PayloadsKept, Search, Grown, GrowRefused;
      hide Sound, Heap, MemOk, Indexed, Chain, Distinct, AllLive, SoundSystem, RunOk, WithChunk;
      GranularityOk();
      SameMemory(mem, runs, 0);
      SameElsewhere(mem, ChunkSet(chunks));
      h, thrown := 0, false;
      if canGrow {
        var grown := GrowFor(needed);
        if !grown {
          thrown := true;
          return;
        }
        h := FindFit(needed);
        assert h != 0;
      }
    }

    // The whole search: owned memory first, then the deferred chunk, then one grow.
    method FindOrGrow(needed: nat) returns (h: Addr, thrown: bool)
      requires Valid() && LegalRunSize(needed) && IsWord(needed)
      modifies this`mem, this`lists, this`runs, this`chunks, this`calls, this`nextGrowth, this`deferred,
               this`remoteHead, this`parked, bins, mask
      ensures Valid() && WordsOk(Where(), old(Knows()))
      ensures (Knows(), h, thrown) == Found(Where(), old(Knows()), needed)
      ensures thrown <==> Throws(Where(), old(Knows()), needed)
      ensures !thrown && h == 0 <==> Exhausted(Where(), old(Knows()), needed)
      ensures |chunks| == |old(chunks)| + Brought(Where(), old(Knows()), needed)
      ensures !thrown && h != 0 ==> h in Free(runs) && needed <= Free(runs)[h]
      ensures thrown || h == 0 ==> NoFit(runs, needed)
      ensures if NoFit(old(runs), needed)
              then parked == [] && Live(runs) == Live(old(runs)) - Elements(old(parked))
              else runs == old(runs) && parked == old(parked) && mem == old(mem) && chunks == old(chunks)
      ensures OtherPayloadsKept(old(mem), mem, old(runs), old(parked)) && ElsewhereKept(old(mem), mem, ChunkSet(chunks))
    {
      hide ElsewhereKept, Search, Drained, FirstChunked, FoundByGrowing, NoFit, GrowRefused, Refused;
      hide Sound, Heap, MemOk, Indexed, Chain, Distinct, AllLive, SoundSystem, RunOk, Tiled, Coalesced, Installed;
      hide ChunkInstalled;
      hide OtherPayloadsKept, PayloadsKept, LegalRunSize, Pow2, OwnedChunkBytes, ReleaseAll, WithChunk, BinIndex, Free;
      hide Live;
      hide GrowthOk, Servable, Doubled;
      ghost var m0, r0, batch := mem, runs, parked;
      GranularityOk();
      GrowthKnown();
      ZeroIsNoRun();
      h := FindOwned(needed);
      if h != 0 {
        return h, false;
      }
      ghost var m1, r1, cs1 := mem, runs, ChunkSet(chunks);
      if deferred != 0 {
        NoChunksNoRuns();
        var added := InstallFirstChunk(deferred);
        KeptThenKept(m0, m1, mem, r0, r1, batch);
        ElsewhereTwice(m0, m1, mem, cs1, ChunkSet(chunks));
        if !added {
          StillDeferred();
          return 0, true;
        }
        FirstChunkFits(chunks[0], needed);
        h := FindFit(needed);
        if h != 0 {
          return h, false;
        }
      }
      ghost var m2, r2, cs2 := mem, runs, ChunkSet(chunks);
      h, thrown := FindByGrowing(needed);
      KeptThenKept(m0, m2, mem, r0, r2, batch);
      ElsewhereTwice(m0, m2, mem, cs2, ChunkSet(chunks));
    }

    lemma GrowthKnown()
      requires GrowthOk()
      ensures IsWord(nextGrowth) && IsWord(deferred) && (deferred != 0 ==> !external && chunks == [])
    {
    }

    lemma StillDeferred()
      requires IsWord(nextGrowth) && IsWord(deferred) && deferred != 0 && !external && chunks == []
      ensures GrowthOk()
    {
    }

    lemma NoChunksNoRuns()
      requires Sound()
      ensures chunks == [] ==> runs == map[]
    {
      hide Coalesced, MemOk, Indexed, Chain, SoundSystem;
      forall h | h in runs
        ensures runs[h].home in chunks
      {
        assert RunOk(runs, ChunkSet(chunks), h);
      }
    }

    lemma ZeroIsNoRun()
      requires Sound()
      ensures 0 !in runs
    {
      assert 0 in runs ==> RunOk(runs, ChunkSet(chunks), 0);
    }

    /** Allocates at least `bytes` bytes (at least one). The granted run is at most 96
        bytes larger than the least legal run; it was free before, and no allocated
        payload changes. Failure is genuine: it is reported only when the request
        cannot be normalised or, with every parked run freed, no free run suffices
        and the heap may not or cannot grow. */
    method AllocateBytes(bytes: nat, alignment: nat) returns (out: Outcome)
      requires Valid() && IsWord(bytes)
      modifies this`mem, this`lists, this`runs, this`chunks, this`calls, this`nextGrowth, this`deferred,
               this`remoteHead, this`parked, bins, mask
      ensures Valid()
      ensures Servable(bytes, alignment) <==> alignment <= 16 && bytes <= 0x1_0000_0000_0000_0000 - 32
      ensures out.Got? && PowerOfTwo(alignment) ==> alignment > 0 && out.p % alignment == 0
      ensures alignment > 16 || bytes > 0x1_0000_0000_0000_0000 - 32 ==>
                && out == Null && runs == old(runs) && mem == old(mem) && parked == old(parked) && chunks == old(chunks)
                && bins[..] == old(bins[..]) && mask[..] == old(mask[..]) && remoteHead == old(remoteHead)
                && calls == old(calls) && nextGrowth == old(nextGrowth) && deferred == old(deferred)
      ensures Servable(bytes, alignment) ==>
                var needed := RunBytesFor(bytes);
                var survivors := Live(old(runs)) - (if NoFit(old(runs), needed) then Elements(old(parked)) else {});
                && parked == (if NoFit(old(runs), needed) then [] else old(parked))
                && (out.Got? ==>
                      && out.p - HEADER_SIZE in runs && out.p - HEADER_SIZE !in survivors
                      && needed <= runs[out.p - HEADER_SIZE].size <= needed + 96
                      && bytes <= runs[out.p - HEADER_SIZE].size - HEADER_SIZE
                      && Live(runs) == survivors[out.p - HEADER_SIZE := runs[out.p - HEADER_SIZE].size]
                      && out.p - HEADER_SIZE !in parked)
                && (!out.Got? ==> NoFit(runs, needed) && Live(runs) == survivors)
                && (!canGrow && old(deferred) == 0 ==> out != BadAlloc)
      ensures WordsOk(Where(), old(Knows())) && (Knows(), out) == Allocated(Where(), old(Knows()), bytes, alignment)
      ensures Servable(bytes, alignment) ==>
                && (out == BadAlloc <==> Throws(Where(), old(Knows()), RunBytesFor(bytes)))
                && (out == Null <==> Exhausted(Where(), old(Knows()), RunBytesFor(bytes)))
                && (canGrow ==> out != Null)
                && |chunks| == |old(chunks)| + Brought(Where(), old(Knows()), RunBytesFor(bytes))
      ensures OtherPayloadsKept(old(mem), mem, old(runs), old(parked)) && ElsewhereKept(old(mem), mem, ChunkSet(chunks))
    {
      hide Sound, Heap, MemOk, Indexed, Chain, Distinct, AllLive, SoundSystem, RunOk, Tiled, Coalesced, GrowthOk;
      hide OtherPayloadsKept, PayloadsKept, NormalizedRunBytes, ReleaseAll, BinIndex, LegalRunSize, Carve, NoFit;
      hide GrantedSize, PowerOfTwo, Servable;
      hide Found, Carved, Brought, Refused, CannotGrow, ElsewhereKept;
      NothingKept(mem, runs, parked);
      SameElsewhere(mem, ChunkSet(chunks));
      WordsKnown();
      var asked := if bytes == 0 then 1 else bytes;
      ServableMeans(bytes, alignment);
      NormalizedIsLeast(asked);
      if alignment > RUN_ALIGNMENT {
        return Null;
      }
      var needed := NormalizedRunBytes(asked);
      if needed.None? {
        return Null;
      }
      ExhaustedIsFixed(Where(), old(Knows()), needed.value);
      var h, thrown := FindOrGrow(needed.value);
      if thrown {
        return BadAlloc;
      }
      if h == 0 {
        return Null;
      }
      ghost var m1, r1 := mem, runs;
      CarveFits(h, needed.value);
      RunAlignmentServes(h, alignment);
      var p := AllocateFromFreeRun(h, needed.value);
      ElsewhereTwice(old(mem), m1, mem, ChunkSet(chunks), ChunkSet(chunks));
      KeptThroughGrant(old(mem), m1, mem, old(runs), r1, old(parked), h, NoFit(old(runs), needed.value));
      out := Got(p);
    }

    // What carving the found run leaves.
    lemma CarveFits(h: Addr, needed: nat)
      requires Sound() && h in Free(runs) && LegalRunSize(needed) && needed <= Free(runs)[h]
      ensures h in runs && runs[h].free && h !in parked && h !in Live(runs) && h % RUN_ALIGNMENT == 0
      ensures var after := Carve(runs, h, needed);
              && h in after && needed <= after[h].size <= needed + 96
              && Live(after) == Live(runs)[h := after[h].size]
    {
      ghost var cs := ChunkSet(chunks);
      CarveKeeps(runs, cs, h, needed);
      assert RunOk(runs, cs, h);
      WasteBound(runs[h].size, needed);
      assert Live(Carve(runs, h, needed))[h] == Carve(runs, h, needed)[h].size;
    }

    /** `owns_run`: the address lies in one of the chunks. */
    method OwnsRun(p: Addr) returns (owns: bool)
      ensures owns <==> p != 0 && exists c :: c in chunks && c.begin <= p < c.begin + c.bytes
    {
      if p == 0 {
        return false;
      }
      for i := 0 to |chunks|
        invariant forall j :: 0 <= j < i ==> !(chunks[j].begin <= p < chunks[j].begin + chunks[j].bytes)
      {
        var c := chunks[i];
        if p >= c.begin && p < c.begin + c.bytes {
          return true;
        }
      }
      owns := false;
    }

    /** Grows a run in place or changes nothing. The result is the payload the run
        now has; it reaches the request exactly when the run was large enough
        already, or when the run behind it is free and both together suffice. */
    method Expand(p: Addr, minNewBytes: nat) returns (payload: nat)
      requires p != 0 ==> p - HEADER_SIZE in runs && !runs[p - HEADER_SIZE].free && p - HEADER_SIZE !in parked
      requires Valid() && IsWord(minNewBytes)
      modifies this`mem, this`lists, this`runs, bins, mask
      ensures p == 0 ==> payload == 0 && runs == old(runs) && mem == old(mem)
      ensures p != 0 ==>
                var h := p - HEADER_SIZE;
                && h in runs && !runs[h].free && payload == runs[h].size - HEADER_SIZE
                && (payload >= minNewBytes <==>
                      || minNewBytes <= old(runs)[h].size - 16
                      || (&& h + old(runs)[h].size in old(runs) && old(runs)[h + old(runs)[h].size].free
                          && minNewBytes <= old(runs)[h].size + old(runs)[h + old(runs)[h].size].size - 16))
                && (old(runs)[h].size - HEADER_SIZE >= minNewBytes || !Reaches(old(runs), h, minNewBytes) ==>
                      runs == old(runs) && mem == old(mem) && lists == old(lists) && bins[..] == old(bins[..]) &&
                          mask[..] == old(mask[..]))
                && (old(runs)[h].size - HEADER_SIZE < minNewBytes && Reaches(old(runs), h, minNewBytes) ==>
                      runs == Stretch(old(runs), h, NormalizedRunBytes(minNewBytes).value))
                && PayloadsKept(old(mem), mem, old(runs), h)
                && SameWords(old(mem), mem, p, h + old(runs)[h].size)
      ensures (Knows(), payload) == Expanded(old(Knows()), p, minNewBytes)
      ensures ElsewhereKept(old(mem), mem, ChunkSet(chunks))
      ensures Valid()
    {
      hide SoundSystem, GrowthOk, Stretched, ElsewhereKept;
      SameElsewhere(mem, ChunkSet(chunks));
      hide RunOk, Tiled, Coalesced, MemOk, BinsOk, MaskOk, Stretch, Chain, Distinct, AllLive, Spaced, SizesOk;
      hide LegalRunSize;
      hide Confined, PayloadsKept, SizeField, PrevFlag, FreeFlag, OnlyLinks, GrantWords, Cuts, Grantable, NextRun;
      hide NormalizedRunBytes, SameWords, LinkedOutside;
      if p == 0 {
        return 0;
      }
      var current := p - HEADER_SIZE;
      ghost var h, m0, cs := p - HEADER_SIZE, mem, ChunkSet(chunks);
      SizesLegal(runs, cs);
      Neighbours(mem, runs, cs, self, h);
      NormalizedIsLeast(minNewBytes);
      SameMemory(mem, runs, h);
      SameEverywhere(mem, p, h + runs[h].size);
      ReachesMeans(runs, cs, h, minNewBytes);
      var currentSize := SizeField(mem[current]);
      payload := currentSize - HEADER_SIZE;
      if payload >= minNewBytes {
        return;
      }
      var needed := NormalizedRunBytes(minNewBytes);
      if needed.None? {
        return;
      }
      var next := NextRun(mem, current);
      if next == 0 || !FreeFlag(mem[next]) {
        return;
      }
      PairInWord(runs, cs, h);
      var combined := CheckedAdd(currentSize, SizeField(mem[next]));
      if combined.None? {
        return;
      }
      if combined.value < needed.value {
        return;
      }
      StretchRun(current, next, combined.value, needed.value);
      Neighbours(mem, runs, cs, self, h);
      payload := SizeField(mem[current]) - HEADER_SIZE;
    }

    /** Parks an allocated run on the remote stack (one uncontended push; the races
        of the compare-exchange loop are the subject of RemoteStack). */
    method RemotePush(p: Addr)
      requires Valid() && p - HEADER_SIZE in runs && !runs[p - HEADER_SIZE].free && p - HEADER_SIZE !in parked
      modifies this`mem, this`remoteHead, this`parked
      ensures Valid()
      ensures parked == [p - HEADER_SIZE] + old(parked) && remoteHead == p
      ensures Knows() == Parked(old(Knows()), p) && mem == old(mem)[p := old(remoteHead)]
      ensures PayloadsKept(old(mem), mem, runs, p - HEADER_SIZE)
    {
      hide SoundSystem, GrowthOk;
      hide RunOk, Tiled, Coalesced, BinsOk, MaskOk, Chain;
      ghost var h, m0, cs := p - HEADER_SIZE, mem, ChunkSet(chunks);
      SizesLegal(runs, cs);
      LinksMapped(mem, runs, cs, self, h);
      PayloadWrite(mem, runs, cs, self, h, p, remoteHead);
      PayloadWriteBins(mem, bins[..], lists, runs, cs, h, p, remoteHead);
      PushChain(mem, runs, cs, self, remoteHead, parked, h);
      mem := mem[p := remoteHead];
      remoteHead := p;
      parked := [h] + parked;
    }

    /** A user stores a word in a payload of his: nothing of the heap is affected. */
    method Store(h: Addr, a: Addr, value: int)
      requires Valid() && InPayload(runs, h, a) && h !in parked && a in mem
      modifies this`mem
      ensures Valid() && mem == old(mem)[a := value]
    {
      hide SoundSystem, GrowthOk;
      hide RunOk, Tiled, Coalesced, BinsOk, MaskOk, Chain;
      ghost var cs := ChunkSet(chunks);
      SizesLegal(runs, cs);
      PayloadWrite(mem, runs, cs, self, h, a, value);
      PayloadWriteBins(mem, bins[..], lists, runs, cs, h, a, value);
      ChainKept(mem, mem[a := value], runs, remoteHead, parked, h);
      mem := mem[a := value];
    }

    /** Others write: users, and caches, into the payloads they hold, and other runners
        into chunks of their own. */
    method Written(memory: Memory)
      requires Valid() && UserWrites(mem, memory, runs, ChunkSet(chunks), parked)
      modifies this`mem
      ensures Valid() && mem == memory
    {
      hide SoundSystem, GrowthOk, MemOk, BinsOk, MaskOk, Chain, AllLive, Distinct, Tiled, Coalesced, UserWrites;
      ghost var cs := ChunkSet(chunks);
      WritesKeepHeap(mem, memory, runs, cs, self, parked);
      WritesKeepBins(mem, memory, bins[..], lists, runs, cs, parked);
      WritesKeepChain(mem, memory, remoteHead, parked, runs, cs, parked);
      mem := memory;
    }

    /** Takes over the whole remote stack and replays it. The link of each parked run
        is read before that run is freed, and freeing never disturbs the links of
        those still to come: exactly the parked runs are freed. */
    method DrainRemote() returns (drained: bool)
      requires Valid()
      modifies this`mem, this`lists, this`runs, this`remoteHead, this`parked, bins, mask
      ensures Valid()
      ensures drained <==> old(parked) != []
      ensures parked == [] && remoteHead == 0
      ensures runs == ReleaseAll(old(runs), old(parked))
      ensures Live(runs) == Live(old(runs)) - Elements(old(parked))
      ensures Knows() == Drained(old(Knows()))
      ensures OtherPayloadsKept(old(mem), mem, old(runs), old(parked)) && ElsewhereKept(old(mem), mem, ChunkSet(chunks))
      ensures old(parked) == [] ==> mem == old(mem) && lists == old(lists) && bins[..] == old(bins[..])
    {
      hide SoundSystem, GrowthOk;
      hide RunOk, Tiled, Coalesced, MemOk, BinsOk, MaskOk, Release, Spaced, SizesOk, PayloadsKept, OtherPayloadsKept;
      hide Chain, AllLive, Distinct, FreedLists, ElsewhereKept;
      ghost var runs0, lists0, mem0, batch, cs := runs, lists, mem, parked, ChunkSet(chunks);
      SameElsewhere(mem, cs);
      SizesLegal(runs, cs);
      ReleaseAllKeeps(runs, cs, batch);
      HeadOfChain(mem, runs, cs, remoteHead, batch);
      var head := remoteHead;
      remoteHead := 0;
      parked := [];
      NoneParked(mem, runs);
      NothingKept(mem, runs, batch);
      if head == 0 {
        return false;
      }
      ghost var k := 0;
      assert batch[..k] == [] && batch[k..] == batch;
      while head != 0
        invariant 0 <= k <= |batch|
        invariant Valid() && parked == [] && remoteHead == 0 && chunks == old(chunks)
        invariant Chain(mem, head, batch[k..]) && AllLive(runs, batch[k..])
        invariant head == if k < |batch| then batch[k] + HEADER_SIZE else 0
        invariant forall j :: 0 <= j < |batch| ==> batch[j] > 0
        invariant runs == ReleaseAll(runs0, batch[..k])
        invariant ReplayedLists(runs, lists, batch[k..]) == ReplayedLists(runs0, lists0, batch)
        invariant OtherPayloadsKept(mem0, mem, runs0, batch) && ElsewhereKept(mem0, mem, cs)
        invariant nextGrowth == old(nextGrowth) && deferred == old(deferred) && calls == old(calls)
        decreases |batch| - k
      {
        ghost var h, mem1, runs1, rest := batch[k], mem, runs, batch[k + 1..];
        NextInChain(mem, head, batch[k..]);
        var next := mem[head];
        ReplayStep(runs0, cs, batch, k);
        DeallocateBytes(head);
        KeptThrough(mem0, mem1, mem, runs0, runs1, cs, batch, k);
        ElsewhereTwice(mem0, mem1, mem, cs, cs);
        SizesLegal(runs1, cs);
        ChainKept(mem1, mem, runs1, next, rest, h);
        LiveAfterRelease(runs1, cs, h, rest);
        head := next;
        k := k + 1;
      }
      assert batch[..k] == batch;
      drained := true;
    }
  }

  function NoBins(): seq<Addr> {
    seq(BIN_COUNT, _ => 0)
  }

  function NoBits(): seq<Word64> {
    seq(WORD_COUNT, _ => 0)
  }

  /** What `_link_free` leaves: the run heads the list of its bin, and the bit of that
      bin is set. */
  ghost predicate LinkedIn(m0: Memory, bins0: seq<Addr>, mask0: seq<Word64>, m1: Memory, bins1: seq<Addr>,
                           mask1: seq<Word64>, h: Addr, size: nat) {
    && |bins0| == BIN_COUNT && |mask0| == WORD_COUNT && 0 <= BinIndex(size) < BIN_COUNT
    && m1 == PushWords(m0, bins0[BinIndex(size)], h)
    && bins1 == bins0[BinIndex(size) := h] && mask1 == WithMaskBit(mask0, BinIndex(size), true)
  }

  /** What installing chunk `c` with the words of its region makes of memory, bins and
      mask. */
  ghost predicate ChunkInstalled(m0: Memory, bins0: seq<Addr>, mask0: seq<Word64>, m1: Memory, bins1: seq<Addr>,
                                 mask1: seq<Word64>, c: Chunk, words: Memory) {
    && c.bytes >= MIN_CHUNK && c.bytes % RUN_ALIGNMENT == 0
    && exists m: Memory :: LinkedIn(ChunkHeaders(m0 + words, c), bins0, mask0, m, bins1, mask1, c.begin,
           c.bytes - EPILOGUE_SIZE) && m1 == ChunkTail(m, c)
  }

  lemma InstalledBy(m0: Memory, bins0: seq<Addr>, mask0: seq<Word64>, m: Memory, bins1: seq<Addr>, mask1: seq<Word64>,
                    c: Chunk, words: Memory)
    requires c.bytes >= MIN_CHUNK && c.bytes % RUN_ALIGNMENT == 0
    requires LinkedIn(ChunkHeaders(m0 + words, c), bins0, mask0, m, bins1, mask1, c.begin, c.bytes - EPILOGUE_SIZE)
    ensures ChunkInstalled(m0, bins0, mask0, ChunkTail(m, c), bins1, mask1, c, words)
  {
  }

  /** Two sound runners that know the same hold the same bins, the same mask bits, the
      same remote stack, and the same words wherever the heap keeps its own: headers,
      footers, owner words and links. */
  lemma KnowledgeIsHeap(a: Allocator, b: Allocator)
    requires a.Sound() && b.Sound() && a.Knows() == b.Knows() && a.self == b.self
    ensures a.bins[..] == b.bins[..] && a.remoteHead == b.remoteHead
    ensures |a.mask[..]| == |b.mask[..]| == WORD_COUNT
    ensures forall i :: 0 <= i < BIN_COUNT ==> MaskBit(a.mask[..], i) == MaskBit(b.mask[..], i)
    ensures forall h :: h in a.runs ==> SameRunWords(a.mem, b.mem, h, a.runs[h])
    ensures forall h :: h in a.parked ==>
              h + HEADER_SIZE in a.mem && h + HEADER_SIZE in b.mem && a.mem[h + HEADER_SIZE] == b.mem[h + HEADER_SIZE]
  {
    hide Heap, SoundSystem, MaskBit, AllLive, Distinct, MemOk, BinsOk, Chain;
    SameBins(a.mem, b.mem, a.bins[..], b.bins[..], a.lists, Free(a.runs));
    forall h | h in a.runs
      ensures SameRunWords(a.mem, b.mem, h, a.runs[h])
    {
      SameHeapWords(a.mem, b.mem, a.runs, ChunkSet(a.chunks), a.self, h);
      if a.runs[h].free {
        SameLinkWords(a.mem, b.mem, a.bins[..], b.bins[..], a.lists, Free(a.runs), h);
      }
    }
    SameChain(a.mem, b.mem, a.remoteHead, b.remoteHead, a.parked);
  }

  lemma SameHeapWords(m1: Memory, m2: Memory, runs: Runs, chunks: set<Chunk>, self: int, h: Addr)
    requires MemOk(m1, runs, chunks, self) && MemOk(m2, runs, chunks, self) && h in runs
    ensures SameWord(m1, m2, h)
    ensures if runs[h].free then SameWord(m1, m2, h + runs[h].size - WORD_BYTES) else SameWord(m1, m2, h + WORD_BYTES)
  {
    hide Pack, PrevFree;
    assert RunWords(m1, runs, self, h) && RunWords(m2, runs, self, h);
  }

  lemma SameChain(m1: Memory, m2: Memory, head1: Addr, head2: Addr, s: seq<Addr>)
    requires Chain(m1, head1, s) && Chain(m2, head2, s)
    ensures head1 == head2
    ensures forall h :: h in s ==> h + HEADER_SIZE in m1 && h + HEADER_SIZE in m2 && m1[h + HEADER_SIZE] == m2[h + HEADER_SIZE]
  {
    forall h | h in s
      ensures h + HEADER_SIZE in m1 && h + HEADER_SIZE in m2 && m1[h + HEADER_SIZE] == m2[h + HEADER_SIZE]
    {
      var j: nat :| j < |s| && s[j] == h;
      assert ParkLink(m1, s, j) && ParkLink(m2, s, j);
    }
  }

  ghost predicate SameWord(m1: Memory, m2: Memory, a: Addr) {
    a in m1 && a in m2 && m1[a] == m2[a]
  }

  ghost predicate SameRunWords(m1: Memory, m2: Memory, h: Addr, r: Run) {
    && SameWord(m1, m2, h)
    && (r.free ==> SameWord(m1, m2, h + r.size - WORD_BYTES) && SameWord(m1, m2, h + NEXT) && SameWord(m1, m2, h + PREV))
    && (!r.free ==> SameWord(m1, m2, h + WORD_BYTES))
  }

  lemma SameBins(m1: Memory, m2: Memory, b1: seq<Addr>, b2: seq<Addr>, lists: seq<seq<Addr>>, linked: map<Addr, nat>)
    requires BinsOk(m1, b1, lists, linked) && BinsOk(m2, b2, lists, linked)
    ensures b1 == b2
  {
    hide BinIndex, NodeOk, Distinct, Spaced, SizesOk;
    forall i | 0 <= i < BIN_COUNT
      ensures b1[i] == b2[i]
    {
      assert Dll(m1, b1[i], lists[i]) && Dll(m2, b2[i], lists[i]);
    }
  }

  lemma SameLinkWords(m1: Memory, m2: Memory, b1: seq<Addr>, b2: seq<Addr>, lists: seq<seq<Addr>>,
                      linked: map<Addr, nat>, h: Addr)
    requires BinsOk(m1, b1, lists, linked) && BinsOk(m2, b2, lists, linked) && h in linked
    ensures SameWord(m1, m2, h + NEXT) && SameWord(m1, m2, h + PREV)
  {
    hide BinIndex, Distinct, Spaced, SizesOk;
    var i := BinIndex(linked[h]);
    var k: nat :| k < |lists[i]| && lists[i][k] == h;
    assert Dll(m1, b1[i], lists[i]) && Dll(m2, b2[i], lists[i]);
    assert NodeOk(m1, lists[i], k) && NodeOk(m2, lists[i], k);
  }

  // A runner whose only run is that of its first chunk.
  lemma FirstChunkFits(c: Chunk, needed: nat)
    requires c.bytes >= MIN_CHUNK
    ensures NoFit(WithChunk(map[], c), needed) <==> c.bytes < needed + EPILOGUE_SIZE
  {
    assert c.begin in Free(WithChunk(map[], c));
  }

  lemma SameElsewhere(mem: Memory, chunks: set<Chunk>)
    ensures ElsewhereKept(mem, mem, chunks)
  {
  }

  lemma EmptyChain(mem: Memory)
    ensures Chain(mem, 0, [])
  {
  }

  lemma NoneParked(mem: Memory, runs: Runs)
    ensures Chain(mem, 0, []) && AllLive(runs, []) && Distinct<Addr>([])
  {
  }

  lemma NothingKept(mem: Memory, runs: Runs, hs: seq<Addr>)
    ensures OtherPayloadsKept(mem, mem, runs, hs)
  {
  }

  lemma HeadOfChain(mem: Memory, runs: Runs, chunks: set<Chunk>, head: Addr, s: seq<Addr>)
    requires Chain(mem, head, s) && AllLive(runs, s) && Tiled(runs, chunks)
    ensures head == 0 <==> s == []
    ensures head == if s == [] then 0 else s[0] + HEADER_SIZE
    ensures forall j :: 0 <= j < |s| ==> s[j] > 0
  {
    forall j | 0 <= j < |s|
      ensures s[j] > 0
    {
      assert s[j] in s;
      assert RunOk(runs, chunks, s[j]) && ChunkOk(runs[s[j]].home);
    }
  }

  // The first link of a chain, and the chain that remains behind it.
  lemma NextInChain(mem: Memory, head: Addr, s: seq<Addr>)
    requires Chain(mem, head, s) && s != []
    ensures head == s[0] + HEADER_SIZE && head in mem
    ensures mem[head] == if |s| > 1 then s[1] + HEADER_SIZE else 0
    ensures Chain(mem, mem[head], s[1..])
  {
    assert ParkLink(mem, s, 0);
    forall j: nat | j < |s[1..]|
      ensures ParkLink(mem, s[1..], j)
    {
      assert ParkLink(mem, s, j + 1);
    }
  }

  // What one step of the replay may rely on.
  lemma ReplayStep(runs0: Runs, chunks: set<Chunk>, batch: seq<Addr>, k: nat)
    requires Heap(runs0, chunks) && Distinct(batch) && AllLive(runs0, batch) && k < |batch|
    ensures var runs1 := ReleaseAll(runs0, batch[..k]);
            && Heap(runs1, chunks)
            && batch[k] in runs1 && !runs1[batch[k]].free
            && AllLive(runs1, batch[k + 1..]) && batch[k] !in batch[k + 1..]
            && ReleaseAll(runs0, batch[..k + 1]) == Release(runs1, batch[k])
            && Live(runs1) == Live(runs0) - Elements(batch[..k])
            && batch[k..][1..] == batch[k + 1..] && batch[k..][0] == batch[k]
  {
    hide Tiled, Coalesced, Release;
    assert batch[..k + 1] == batch[..k] + [batch[k]];
    assert forall x :: x in batch[..k + 1] ==> x in batch;
    assert forall x :: x in batch[..k] ==> x in batch;
    ReleaseAllKeeps(runs0, chunks, batch[..k]);
    ReleaseAllAppend(runs0, chunks, batch[..k], batch[k]);
    var runs1 := ReleaseAll(runs0, batch[..k]);
    forall x | x in batch[k + 1..]
      ensures x in runs1 && !runs1[x].free && x != batch[k]
    {
      assert x in batch && x in Live(runs0) && x !in batch[..k];
      assert x in Live(runs1);
    }
  }

  // Payloads outside the batch survive one more replayed run.
  lemma KeptThrough(m0: Memory, m1: Memory, m2: Memory, runs0: Runs, runs1: Runs, chunks: set<Chunk>, batch: seq<Addr>,
                    k: nat)
    requires OtherPayloadsKept(m0, m1, runs0, batch) && k < |batch| && PayloadsKept(m1, m2, runs1, batch[k])
    requires Live(runs1) == Live(runs0) - Elements(batch[..k])
    ensures OtherPayloadsKept(m0, m2, runs0, batch)
  {
    forall x, a | InPayload(runs0, x, a) && x !in batch && a in m0
      ensures a in m2 && m2[a] == m0[a]
    {
      assert x in Live(runs0) && x !in batch[..k] && x in Live(runs1);
      assert Live(runs1)[x] == Live(runs0)[x];
      assert InPayload(runs1, x, a);
      assert batch[k] in batch;
    }
  }

  // A word written into an allocated payload is no word of the heap's own.
  lemma PayloadWrite(mem: Memory, runs: Runs, chunks: set<Chunk>, self: int, h: Addr, a: Addr, value: int)
    requires MemOk(mem, runs, chunks, self) && Tiled(runs, chunks) && InPayload(runs, h, a) && a in mem
    ensures MemOk(mem[a := value], runs, chunks, self)
    ensures PayloadsKept(mem, mem[a := value], runs, h)
  {
    var after := mem[a := value];
    hide RunOk;
    SizesLegal(runs, chunks);
    forall x | x in runs
      ensures RunWords(after, runs, self, x)
    {
      assert RunWords(mem, runs, self, x);
    }
    forall c | c in chunks
      ensures EpilogueWords(after, c)
    {
      assert EpilogueWords(mem, c);
      PayloadNotEpilogue(runs, chunks, h, a, c);
    }
  }

  lemma PayloadNotEpilogue(runs: Runs, chunks: set<Chunk>, h: Addr, a: Addr, c: Chunk)
    requires Tiled(runs, chunks) && InPayload(runs, h, a) && c in chunks
    ensures a != Epilogue(c) && a != Epilogue(c) + WORD_BYTES
  {
    assert RunOk(runs, chunks, h) && ChunkOk(c);
    assert runs[h].home != c ==> Apart(runs[h].home, c);
  }

  lemma PayloadWriteBins(mem: Memory, bins: seq<Addr>, lists: seq<seq<Addr>>, runs: Runs, chunks: set<Chunk>, h: Addr,
                         a: Addr, value: int)
    requires BinsOk(mem, bins, lists, Free(runs)) && Tiled(runs, chunks) && InPayload(runs, h, a) && a in mem
    ensures BinsOk(mem[a := value], bins, lists, Free(runs))
  {
    hide RunOk, BinsOk;
    SizesLegal(runs, chunks);
    BinsFrame(mem, mem[a := value], bins, lists, Free(runs));
  }

  /** Inside the chunks, only payload words of allocated runs outside `s` change. */
  ghost predicate UserWrites(before: Memory, after: Memory, runs: Runs, chunks: set<Chunk>, s: seq<Addr>) {
    forall a {:trigger a in after} {:trigger after[a]} :: a in before && !Elsewhere(chunks, a) ==>
      a in after && (after[a] == before[a] || exists h :: h !in s && InPayload(runs, h, a))
  }

  // The word lies in run x, and is no payload word of it.
  lemma NoPayloadWord(runs: Runs, chunks: set<Chunk>, x: Addr, a: Addr)
    requires Tiled(runs, chunks) && x in runs && x <= a < x + runs[x].size && !InPayload(runs, x, a)
    ensures !Elsewhere(chunks, a) && forall h :: !InPayload(runs, h, a)
  {
    hide RunOk;
    RunInChunk(runs, chunks, x);
  }

  lemma EpilogueNoPayload(runs: Runs, chunks: set<Chunk>, c: Chunk)
    requires Tiled(runs, chunks) && c in chunks
    ensures forall a :: a == Epilogue(c) || a == Epilogue(c) + WORD_BYTES ==>
              !Elsewhere(chunks, a) && forall h :: !InPayload(runs, h, a)
  {
    hide RunOk, Disjoint;
    assert ChunkOk(c);
    forall a, h | a == Epilogue(c) || a == Epilogue(c) + WORD_BYTES
      ensures !InPayload(runs, h, a)
    {
      if InPayload(runs, h, a) {
        PayloadNotEpilogue(runs, chunks, h, a, c);
      }
    }
  }

  lemma WritesKeepHeap(before: Memory, after: Memory, runs: Runs, chunks: set<Chunk>, self: int, s: seq<Addr>)
    requires MemOk(before, runs, chunks, self) && Tiled(runs, chunks) && UserWrites(before, after, runs, chunks, s)
    ensures MemOk(after, runs, chunks, self)
  {
    hide Tiled, InPayload, UserWrites;
    SizesLegal(runs, chunks);
    forall c, a | c in chunks && WordOf(c, a)
      ensures a in after
    {
      StillThere(before, after, runs, chunks, s, a);
    }
    forall x | x in runs
      ensures RunWords(after, runs, self, x)
    {
      assert RunWords(before, runs, self, x);
      RunWordsStay(before, after, runs, chunks, self, s, x);
    }
    forall c | c in chunks
      ensures EpilogueWords(after, c)
    {
      assert EpilogueWords(before, c);
      EpilogueNoPayload(runs, chunks, c);
      WordStays(before, after, runs, chunks, s, Epilogue(c));
      WordStays(before, after, runs, chunks, s, Epilogue(c) + WORD_BYTES);
    }
  }

  lemma StillThere(before: Memory, after: Memory, runs: Runs, chunks: set<Chunk>, s: seq<Addr>, a: Addr)
    requires UserWrites(before, after, runs, chunks, s) && a in before && !Elsewhere(chunks, a)
    ensures a in after
  {
  }

  lemma WordStays(before: Memory, after: Memory, runs: Runs, chunks: set<Chunk>, s: seq<Addr>, a: Addr)
    requires UserWrites(before, after, runs, chunks, s) && a in before && !Elsewhere(chunks, a)
    requires forall h :: h !in s ==> !InPayload(runs, h, a)
    ensures a in after && after[a] == before[a]
  {
  }

  lemma RunWordsStay(before: Memory, after: Memory, runs: Runs, chunks: set<Chunk>, self: int, s: seq<Addr>, x: Addr)
    requires Tiled(runs, chunks) && UserWrites(before, after, runs, chunks, s)
    requires x in runs && runs[x].size >= MIN_RUN && RunWords(before, runs, self, x)
    ensures RunWords(after, runs, self, x)
  {
    hide Tiled, UserWrites, Pack;
    NoPayloadWord(runs, chunks, x, x);
    WordStays(before, after, runs, chunks, s, x);
    if runs[x].free {
      NoPayloadWord(runs, chunks, x, x + runs[x].size - WORD_BYTES);
      WordStays(before, after, runs, chunks, s, x + runs[x].size - WORD_BYTES);
    } else {
      NoPayloadWord(runs, chunks, x, x + WORD_BYTES);
      WordStays(before, after, runs, chunks, s, x + WORD_BYTES);
    }
  }

  lemma WritesKeepBins(before: Memory, after: Memory, bins: seq<Addr>, lists: seq<seq<Addr>>, runs: Runs,
                       chunks: set<Chunk>, s: seq<Addr>)
    requires BinsOk(before, bins, lists, Free(runs)) && Tiled(runs, chunks)
    requires UserWrites(before, after, runs, chunks, s)
    ensures BinsOk(after, bins, lists, Free(runs))
  {
    hide BinsOk, Tiled, UserWrites;
    SizesLegal(runs, chunks);
    forall h | h in Free(runs)
      ensures h + NEXT in before ==> h + NEXT in after && after[h + NEXT] == before[h + NEXT]
      ensures h + PREV in before ==> h + PREV in after && after[h + PREV] == before[h + PREV]
    {
      NoPayloadWord(runs, chunks, h, h + NEXT);
      NoPayloadWord(runs, chunks, h, h + PREV);
      if h + NEXT in before {
        WordStays(before, after, runs, chunks, s, h + NEXT);
      }
      if h + PREV in before {
        WordStays(before, after, runs, chunks, s, h + PREV);
      }
    }
    BinsFrame(before, after, bins, lists, Free(runs));
  }

  // Payload words of different runs are different words.
  lemma OnePayload(runs: Runs, chunks: set<Chunk>, h: Addr, a: Addr)
    requires Tiled(runs, chunks) && InPayload(runs, h, a)
    ensures !Elsewhere(chunks, a) && forall g :: InPayload(runs, g, a) ==> g == h
  {
    hide RunOk;
    RunInChunk(runs, chunks, h);
  }

  lemma WritesKeepChain(before: Memory, after: Memory, head: Addr, s: seq<Addr>, runs: Runs, chunks: set<Chunk>,
                        parked: seq<Addr>)
    requires Chain(before, head, s) && AllLive(runs, s) && Tiled(runs, chunks)
    requires UserWrites(before, after, runs, chunks, parked)
    requires forall h :: h in s ==> h in parked
    ensures Chain(after, head, s)
  {
    hide Tiled, UserWrites;
    SizesLegal(runs, chunks);
    forall j: nat | j < |s|
      ensures ParkLink(after, s, j)
    {
      assert ParkLink(before, s, j) && s[j] in s;
      OnePayload(runs, chunks, s[j], s[j] + HEADER_SIZE);
      WordStays(before, after, runs, chunks, parked, s[j] + HEADER_SIZE);
    }
  }

  lemma PushChain(mem: Memory, runs: Runs, chunks: set<Chunk>, self: int, head: Addr, s: seq<Addr>, h: Addr)
    requires Chain(mem, head, s) && Distinct(s) && AllLive(runs, s) && Tiled(runs, chunks)
    requires h in runs && !runs[h].free && h !in s
    ensures Chain(mem[h + HEADER_SIZE := head], h + HEADER_SIZE, [h] + s)
    ensures Distinct([h] + s) && AllLive(runs, [h] + s)
  {
    var after, t := mem[h + HEADER_SIZE := head], [h] + s;
    forall j: nat | j < |t|
      ensures ParkLink(after, t, j)
    {
      if j > 0 {
        assert ParkLink(mem, s, j - 1) && s[j - 1] in s;
      }
    }
  }

  /** The chunk that `_add_external_chunk` makes of a span: its start aligned up, its
      tail truncated; None where the source throws. */
  function FitBacking(data: Addr, size: nat): Option<Chunk>
    requires data >= 0
  {
    var pad := if data % RUN_ALIGNMENT == 0 then 0 else RUN_ALIGNMENT - data % RUN_ALIGNMENT;
    if size < pad + MIN_CHUNK then None else
    var space := size - pad;
    Some(Chunk(data + pad, space - space % RUN_ALIGNMENT))
  }

  /** Backing is refused exactly when no aligned block of the least chunk size fits,
      and otherwise all of it is used but for less than 16 bytes at either end. */
  lemma BackingFits(data: Addr, size: nat)
    requires data > 0 && IsWord(data + size)
    ensures FitBacking(data, size).None? <==> forall a :: data <= a && a + MIN_CHUNK <= data + size ==>
              a % RUN_ALIGNMENT != 0
    ensures FitBacking(data, size).Some? ==>
              var c := FitBacking(data, size).value;
              && ChunkOk(c) && data <= c.begin < data + RUN_ALIGNMENT
              && data + size - RUN_ALIGNMENT < c.begin + c.bytes <= data + size
  {
    var pad := if data % RUN_ALIGNMENT == 0 then 0 else RUN_ALIGNMENT - data % RUN_ALIGNMENT;
    assert (data + pad) % RUN_ALIGNMENT == 0;
    if size < pad + MIN_CHUNK {
      forall a | data <= a && a + MIN_CHUNK <= data + size
        ensures a % RUN_ALIGNMENT != 0
      {
        assert data <= a < data + pad;
      }
    } else {
      var space := size - pad;
      assert (space - space % RUN_ALIGNMENT) % RUN_ALIGNMENT == 0;
    }
  }

  lemma KeptThroughGrant(m0: Memory, m1: Memory, m2: Memory, r0: Runs, r1: Runs, batch: seq<Addr>, h: Addr,
                         drained: bool)
    requires OtherPayloadsKept(m0, m1, r0, batch) && PayloadsKept(m1, m2, r1, h)
    requires Live(r1) == Live(r0) - (if drained then Elements(batch) else {})
    requires h !in Live(r1)
    ensures OtherPayloadsKept(m0, m2, r0, batch)
  {
    forall x, a | InPayload(r0, x, a) && x !in batch && a in m0
      ensures a in m2 && m2[a] == m0[a]
    {
      assert x in Live(r0) && x in Live(r1) && Live(r1)[x] == Live(r0)[x];
      assert InPayload(r1, x, a);
    }
  }

  lemma DrainedNothing(runs: Runs, lists: seq<seq<Addr>>, s: seq<Addr>)
    ensures s == [] ==> ReleaseAll(runs, s) == runs && Elements(s) == {} && ReplayedLists(runs, lists, s) == lists
  {
  }

  lemma KeptThenKept(m0: Memory, m1: Memory, m2: Memory, r0: Runs, r1: Runs, batch: seq<Addr>)
    requires OtherPayloadsKept(m0, m1, r0, batch) && PayloadsKept(m1, m2, r1, 0)
    requires Live(r1) == Live(r0) - Elements(batch)
    requires 0 !in r0
    ensures OtherPayloadsKept(m0, m2, r0, batch)
  {
    forall x, a | InPayload(r0, x, a) && x !in batch && a in m0
      ensures a in m2 && m2[a] == m0[a]
    {
      assert x in Live(r0) && x in Live(r1) && Live(r1)[x] == Live(r0)[x];
      assert InPayload(r1, x, a);
    }
  }

  lemma ChunkSetCons(c: Chunk, cs: seq<Chunk>)
    ensures ChunkSet([c] + cs) == ChunkSet(cs) + {c}
  {
    forall d | d in ChunkSet(cs) + {c}
      ensures d in ChunkSet([c] + cs)
    {
      if d != c {
        var i :| 0 <= i < |cs| && cs[i] == d;
        assert ([c] + cs)[i + 1] == d;
      } else {
        assert ([c] + cs)[0] == d;
      }
    }
  }

  // What a sound system's answer is good for.
  lemma ArenaFits(system: System, k: nat, chunks: set<Chunk>, n: nat)
    requires SoundSystem(system, k, chunks) && Requestable(n)
    ensures system(k, n).Some? ==>
              var a := system(k, n).value;
              && ChunkOk(Chunk(a.base, n))
              && (forall d :: d in chunks ==> Apart(Chunk(a.base, n), d))
              && (forall w :: w in a.words <==> WordOf(Chunk(a.base, n), w))
  {
  }

  lemma LaterCalls(system: System, k: nat, chunks: set<Chunk>, n: nat)
    requires SoundSystem(system, k, chunks) && Requestable(n)
    ensures SoundSystem(system, k + 1, chunks)
    ensures system(k, n).Some? ==> SoundSystem(system, k + 1, chunks + {Chunk(system(k, n).value.base, n)})
  {
  }

  // A sound system stays sound after some calls, for the chunks that they brought.
  lemma SystemStays(site: Site, calls: nat, later: nat, chunks: set<Chunk>, more: set<Chunk>)
    requires SoundSystem(site.system, calls, chunks) && calls <= later
    requires forall c :: c in more ==> c in chunks || FromSystem(site, calls, later, c)
    ensures SoundSystem(site.system, later, more)
  {
    forall k: nat, n: nat, c | k >= later && Requestable(n) && site.system(k, n).Some? && c in more
      ensures Apart(Chunk(site.system(k, n).value.base, n), c)
    {
      if c !in chunks {
        var l: nat, m: nat :|
          calls <= l < later && Requestable(m) && site.system(l, m).Some? &&
              c == Chunk(site.system(l, m).value.base, m);
        assert Apart(Chunk(site.system(l, m).value.base, m), Chunk(site.system(k, n).value.base, n));
      }
    }
  }

  lemma ZeroIsNotParked(runs: Runs, chunks: set<Chunk>, s: seq<Addr>)
    requires Tiled(runs, chunks) && AllLive(runs, s)
    ensures 0 !in s
  {
    assert 0 in runs ==> RunOk(runs, chunks, 0);
  }

  lemma FreeIsNotParked(runs: Runs, s: seq<Addr>, h: Addr)
    requires AllLive(runs, s) && h in runs && runs[h].free
    ensures h !in s
  {
  }

  lemma LiveAfterGrant(runs: Runs, after: Runs, s: seq<Addr>, h: Addr)
    requires AllLive(runs, s)
    requires forall x :: x in Live(runs) ==> x in Live(after)
    ensures AllLive(after, s)
  {
    forall x | x in s
      ensures x in after && !after[x].free
    {
      assert x in Live(runs);
    }
  }
}
