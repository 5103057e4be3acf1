/** The bridge between single writes and whole operations: what unlinking, the
    header and footer writes, and relinking together do to a well-formed heap. */
module HeapSteps {
  import opened Words
  import opened SizeClasses
  import opened Tiling
  import opened HeapOps
  import opened FreeLists
  import opened HeapMemory

  /** `_next_run`: the header behind `h`, or null at the epilogue. */
  function NextRun(mem: Memory, h: Addr): Addr
    requires h in mem && h + SizeField(mem[h]) in mem
  {
    var n := h + SizeField(mem[h]);
    if SizeField(mem[n]) == 0 then 0 else n
  }

  /** `_prev_run`: the header before `h`, found through its footer. */
  function PrevRun(mem: Memory, h: Addr): Addr
    requires h - WORD_BYTES in mem
  {
    var size := mem[h - WORD_BYTES];
    if size == 0 then 0 else h - size
  }

  // What the header words say about the runs around `h`.
  lemma Neighbours(mem: Memory, runs: Runs, chunks: set<Chunk>, self: int, h: Addr)
    requires MemOk(mem, runs, chunks, self) && Tiled(runs, chunks) && h in runs
    ensures h > 0 && h in mem && SizeField(mem[h]) == runs[h].size && FreeFlag(mem[h]) == runs[h].free
    ensures PrevFlag(mem[h]) == PrevFree(runs, h)
    ensures h + SizeField(mem[h]) in mem
    ensures NextRun(mem, h) == if h + runs[h].size in runs then h + runs[h].size else 0
    ensures h + runs[h].size in runs ==>
              var n := h + runs[h].size;
              n in mem && SizeField(mem[n]) == runs[n].size && FreeFlag(mem[n]) == runs[n].free
    ensures PrevFree(runs, h) ==>
              var p := h - runs[h].back;
              && h - WORD_BYTES in mem && PrevRun(mem, h) == p && p != 0
              && p in mem && SizeField(mem[p]) == runs[h].back && FreeFlag(mem[p])
  {
    hide Disjoint;
    var n := h + runs[h].size;
    HeaderOf(mem, runs, chunks, self, h);
    AlwaysLinked(runs, chunks, h);
    if n in runs {
      HeaderOf(mem, runs, chunks, self, n);
    } else {
      assert RunOk(runs, chunks, h);
      assert EpilogueWords(mem, runs[h].home);
    }
    var p := h - runs[h].back;
    if PrevFree(runs, h) {
      HeaderOf(mem, runs, chunks, self, p);
    }
  }

  lemma HeaderOf(mem: Memory, runs: Runs, chunks: set<Chunk>, self: int, h: Addr)
    requires MemOk(mem, runs, chunks, self) && Tiled(runs, chunks) && h in runs
    ensures h > 0 && runs[h].size >= MIN_RUN
    ensures h in mem && SizeField(mem[h]) == runs[h].size && FreeFlag(mem[h]) == runs[h].free
    ensures PrevFlag(mem[h]) == PrevFree(runs, h)
    ensures runs[h].free ==> h + runs[h].size - WORD_BYTES in mem && mem[h + runs[h].size - WORD_BYTES] == runs[h].size
  {
    assert RunWords(mem, runs, self, h);
    assert RunOk(runs, chunks, h) && ChunkOk(runs[h].home);
  }

  /** The free runs of a tiling can be indexed: far enough apart, legal sizes. */
  lemma FreeIndexable(runs: Runs, chunks: set<Chunk>)
    requires Tiled(runs, chunks)
    ensures Spaced(Free(runs)) && SizesOk(Free(runs))
  {
    SizesLegal(runs, chunks);
    forall h | h in Free(runs)
      ensures h > 0 && LegalRunSize(runs[h].size) && IsWord(runs[h].size)
    {
      assert RunOk(runs, chunks, h) && ChunkOk(runs[h].home);
    }
  }

  // The link words of run `h` lie in memory.
  lemma LinksMapped(mem: Memory, runs: Runs, chunks: set<Chunk>, self: int, h: Addr)
    requires MemOk(mem, runs, chunks, self) && Tiled(runs, chunks) && h in runs
    ensures h + NEXT in mem && h + PREV in mem
  {
    assert RunOk(runs, chunks, h);
    var c := runs[h].home;
    WordsOfRun(runs, chunks, h);
    hide WordOf, RunOk, Tiled, RunWords;
    assert c in chunks && WordOf(c, h + NEXT) && WordOf(c, h + PREV);
  }

  lemma WordsOfRun(runs: Runs, chunks: set<Chunk>, h: Addr)
    requires h in runs && RunOk(runs, chunks, h)
    ensures runs[h].home in chunks
    ensures WordOf(runs[h].home, h + NEXT) && WordOf(runs[h].home, h + PREV)
  {
    var c, size := runs[h].home, runs[h].size;
    assert c.begin <= h && h + size <= Epilogue(c) && size >= MIN_RUN && h % RUN_ALIGNMENT == 0;
    hide RunOk, LegalRunSize;
    AlignedWords(h);
  }

  lemma AlignedWords(h: int)
    requires h % RUN_ALIGNMENT == 0
    ensures h % WORD_BYTES == 0 && (h + NEXT) % WORD_BYTES == 0 && (h + PREV) % WORD_BYTES == 0
  {
    var k := h / RUN_ALIGNMENT;
    assert h == WORD_BYTES * (2 * k);
    assert h + NEXT == WORD_BYTES * (2 * k + 2);
    assert h + PREV == WORD_BYTES * (2 * k + 3);
  }

  lemma SameLinks(mem: Memory, hs: set<Addr>)
    ensures OnlyLinks(mem, mem, hs)
  {
  }

  lemma LinksTwice(m0: Memory, m1: Memory, m2: Memory, hs: set<Addr>, gs: set<Addr>)
    requires OnlyLinks(m0, m1, hs) && OnlyLinks(m1, m2, gs) && gs <= hs
    ensures OnlyLinks(m0, m2, hs)
  {
  }

  lemma SameMemory(mem: Memory, runs: Runs, h: Addr)
    ensures PayloadsKept(mem, mem, runs, h)
  {
  }

  /** Changing link words of free runs does not disturb the tiling. */
  lemma LinksKeep(before: Memory, after: Memory, runs: Runs, chunks: set<Chunk>, self: int, hs: set<Addr>)
    requires MemOk(before, runs, chunks, self) && Tiled(runs, chunks)
    requires OnlyLinks(before, after, hs) && hs <= Free(runs).Keys
    ensures MemOk(after, runs, chunks, self)
  {
    hide Tiled, RunWords, EpilogueWords;
    forall x | x in runs
      ensures RunWords(after, runs, self, x)
    {
      assert RunWords(before, runs, self, x);
      LinksKeepRun(before, after, runs, chunks, self, hs, x);
    }
    forall c | c in chunks
      ensures EpilogueWords(after, c)
    {
      LinksKeepEpilogue(before, after, runs, chunks, hs, c);
    }
  }

  lemma LinksKeepEpilogue(before: Memory, after: Memory, runs: Runs, chunks: set<Chunk>, hs: set<Addr>, c: Chunk)
    requires Tiled(runs, chunks) && c in chunks && EpilogueWords(before, c)
    requires OnlyLinks(before, after, hs) && hs <= Free(runs).Keys
    ensures EpilogueWords(after, c)
  {
    hide Tiled;
    var e := Epilogue(c);
    NoRunNear(runs, chunks, c, e - NEXT);
    NoRunNear(runs, chunks, c, e - PREV);
    NoRunNear(runs, chunks, c, e + WORD_BYTES - NEXT);
    NoRunNear(runs, chunks, c, e + WORD_BYTES - PREV);
  }

  lemma LinksKeepRun(before: Memory, after: Memory, runs: Runs, chunks: set<Chunk>, self: int, hs: set<Addr>, x: Addr)
    requires Tiled(runs, chunks) && x in runs && RunWords(before, runs, self, x)
    requires OnlyLinks(before, after, hs) && hs <= Free(runs).Keys
    ensures RunWords(after, runs, self, x)
  {
    SizesLegal(runs, chunks);
    hide RunOk;
    OwnWord(runs, chunks, x, x);
    OwnWord(runs, chunks, x, x + WORD_BYTES);
    OwnWord(runs, chunks, x, x + runs[x].size - WORD_BYTES);
  }

  /** Writes away from the link words of the indexed runs keep the index. */
  lemma BinsFrame(before: Memory, after: Memory, bins: seq<Addr>, lists: seq<seq<Addr>>, linked: map<Addr, nat>)
    requires BinsOk(before, bins, lists, linked)
    requires forall h {:trigger h in linked} :: h in linked ==>
               && (h + NEXT in before ==> h + NEXT in after && after[h + NEXT] == before[h + NEXT])
               && (h + PREV in before ==> h + PREV in after && after[h + PREV] == before[h + PREV])
    ensures BinsOk(after, bins, lists, linked)
  {
    hide BinIndex, Spaced, SizesOk;
    forall i | 0 <= i < BIN_COUNT
      ensures Dll(after, bins[i], lists[i])
    {
      forall x | x in lists[i] && x + NEXT in before && x + PREV in before
        ensures x + NEXT in after && x + PREV in after
        ensures after[x + NEXT] == before[x + NEXT] && after[x + PREV] == before[x + PREV]
      {
        assert x in linked;
      }
      DllFrame(before, after, bins[i], lists[i]);
    }
  }

  // ---------- release ----------

  /** The free runs that stay indexed while `h` is being released. */
  function StillLinked(runs: Runs, h: Addr): map<Addr, nat>
    requires h in runs
  {
    Free(runs)
    - (if NextFree(runs, h) then {h + runs[h].size} else {})
    - (if PrevFree(runs, h) then {h - runs[h].back} else {})
  }

  lemma FreeAfterRelease(runs: Runs, chunks: set<Chunk>, h: Addr)
    requires Heap(runs, chunks) && h in runs && !runs[h].free
    ensures ReleasedAt(runs, h) !in StillLinked(runs, h)
    ensures Free(Release(runs, h)) == StillLinked(runs, h)[ReleasedAt(runs, h) := ReleasedSize(runs, h)]
  {
    hide RunOk, Release;
    ReleaseShape(runs, chunks, h);
    ReleaseInside(runs, chunks, h);
    SizesPositive(runs, chunks);
    var s, z, after := ReleasedAt(runs, h), ReleasedSize(runs, h), Release(runs, h);
    MergedFree(runs, after, s, z, StillLinked(runs, h));
  }

  // Which free runs the merge swallows.
  lemma ReleaseInside(runs: Runs, chunks: set<Chunk>, h: Addr)
    requires Heap(runs, chunks) && h in runs && !runs[h].free
    ensures var s, z := ReleasedAt(runs, h), ReleasedSize(runs, h);
            forall x :: x in runs && runs[x].free ==> (s <= x < s + z <==> x !in StillLinked(runs, h))
    ensures ReleasedAt(runs, h) !in StillLinked(runs, h)
  {
    hide RunOk;
    SizesPositive(runs, chunks);
    AlwaysLinked(runs, chunks, h);
    if NextFree(runs, h) {
      AlwaysLinked(runs, chunks, h + runs[h].size);
    }
  }

  lemma MergedFree(runs: Runs, after: Runs, s: Addr, z: nat, still: map<Addr, nat>)
    requires s in runs && Merged(runs, after, s, z, true) && z > 0
    requires forall x :: x in still ==> x in runs && runs[x].free && still[x] == runs[x].size
    requires forall x :: x in runs && runs[x].free ==> (s <= x < s + z <==> x !in still)
    ensures Free(after) == still[s := z]
  {
    assert forall x :: x in Free(after) <==> x in still[s := z];
    forall x | x in Free(after)
      ensures after[x].size == still[s := z][x]
    {
    }
  }

  /** The header, footer and flag that `deallocate_bytes` writes once the
      neighbours are unlinked. */
  function ReleaseWrites(mem: Memory, runs: Runs, s: Addr, z: nat): Memory
    requires z % 4 == 0
    requires s + z in runs ==> s + z in mem
  {
    var m := mem[s := Pack(z, true, false)][s + z - WORD_BYTES := z];
    if s + z in runs then m[s + z := WithPrevFlag(mem[s + z], true)] else m
  }

  lemma ReleaseFits(mem: Memory, runs: Runs, chunks: set<Chunk>, self: int, h: Addr)
    requires MemOk(mem, runs, chunks, self) && Heap(runs, chunks) && h in runs && !runs[h].free
    ensures var s, z := ReleasedAt(runs, h), ReleasedSize(runs, h);
            && s in runs && s > 0 && z >= MIN_RUN && z % 4 == 0
            && s in mem && s + z - WORD_BYTES in mem && s + NEXT in mem && s + PREV in mem
            && (s + z in runs ==>
                  && s + z in mem && runs[s + z].size % 4 == 0 && !runs[s + z].free
                  && mem[s + z] == Pack(runs[s + z].size, false, PrevFree(runs, s + z)))
            && Spaced(StillLinked(runs, h)[s := z]) && SizesOk(StillLinked(runs, h)[s := z])
  {
    hide RunOk, Release, RunWords;
    ReleaseInterior(runs, chunks, h);
    ReleaseKeeps(runs, chunks, h);
    ReleaseShape(runs, chunks, h);
    FreeAfterRelease(runs, chunks, h);
    FreeIndexable(Release(runs, h), chunks);
    var s, z := ReleasedAt(runs, h), ReleasedSize(runs, h);
    assert s in Free(Release(runs, h));
    LegalMultiple(z);
    LinksMapped(mem, runs, chunks, self, s);
    HeaderOf(mem, runs, chunks, self, s);
    if s + z in runs {
      assert RunWords(mem, runs, self, s + z);
      RunHeader(mem, runs, self, s + z);
    }
    FooterMapped(mem, runs, chunks, self, h);
  }

  lemma RunHeader(mem: Memory, runs: Runs, self: int, x: Addr)
    requires x in runs && RunWords(mem, runs, self, x) && !runs[x].free
    ensures x in mem && runs[x].size % 4 == 0 && mem[x] == Pack(runs[x].size, false, PrevFree(runs, x))
  {
  }

  lemma FooterMapped(mem: Memory, runs: Runs, chunks: set<Chunk>, self: int, h: Addr)
    requires MemOk(mem, runs, chunks, self) && Heap(runs, chunks) && h in runs && !runs[h].free
    ensures ReleasedAt(runs, h) + ReleasedSize(runs, h) - WORD_BYTES in mem
  {
    assert RunOk(runs, chunks, h);
    var n := h + runs[h].size;
    hide RunOk, RunWords;
    if NextFree(runs, h) {
      HeaderOf(mem, runs, chunks, self, n);
    } else {
      LastWordMapped(mem, runs, chunks, h);
    }
  }

  lemma LastWordMapped(mem: Memory, runs: Runs, chunks: set<Chunk>, h: Addr)
    requires Mapped(mem, chunks) && Tiled(runs, chunks) && h in runs
    ensures h + runs[h].size - WORD_BYTES in mem
  {
    assert RunOk(runs, chunks, h);
    var c, z := runs[h].home, runs[h].size;
    assert c in chunks && c.begin <= h && h + z <= Epilogue(c) && z >= MIN_RUN && h % 16 == 0 && z % 16 == 0;
    hide RunOk, Tiled, LegalRunSize;
    AlignedSum(h, z);
    assert WordOf(c, h + z - WORD_BYTES);
  }

  lemma AlignedSum(a: int, b: int)
    requires a % RUN_ALIGNMENT == 0 && b % RUN_ALIGNMENT == 0
    ensures (a + b) % RUN_ALIGNMENT == 0 && (a + b - WORD_BYTES) % WORD_BYTES == 0
    ensures (a + b + WORD_BYTES) % WORD_BYTES == 0
  {
    var k := (a + b) / RUN_ALIGNMENT;
    assert a + b == WORD_BYTES * (2 * k);
    assert a + b - WORD_BYTES == WORD_BYTES * (2 * k - 1);
    assert a + b + WORD_BYTES == WORD_BYTES * (2 * k + 1);
  }

  lemma ReleaseMiddle(m1: Memory, runs: Runs, chunks: set<Chunk>, self: int, h: Addr, bins: seq<Addr>,
                      lists: seq<seq<Addr>>)
    requires MemOk(m1, runs, chunks, self) && Heap(runs, chunks) && h in runs && !runs[h].free
    requires BinsOk(m1, bins, lists, StillLinked(runs, h))
    requires ReleasedSize(runs, h) % 4 == 0
    requires ReleasedAt(runs, h) + ReleasedSize(runs, h) in runs ==> ReleasedAt(runs, h) + ReleasedSize(runs, h) in m1
    ensures var s, z := ReleasedAt(runs, h), ReleasedSize(runs, h);
            var m2 := ReleaseWrites(m1, runs, s, z);
            && m2.Keys == m1.Keys
            && BinsOk(m2, bins, lists, StillLinked(runs, h))
            && ReleaseWords(m2, runs, s, z)
            && (forall a :: a in m1 && !(s <= a < s + z) && (a == s + z ==> s + z !in runs) ==> m2[a] == m1[a])
  {
    hide Tiled, Coalesced, RunWords, BinsOk, Spaced, SizesOk;
    ReleaseFits(m1, runs, chunks, self, h);
    ReleaseInside(runs, chunks, h);
    ReleaseExtent(runs, chunks, h);
    SizesLegal(runs, chunks);
    var s, z := ReleasedAt(runs, h), ReleasedSize(runs, h);
    var m2 := ReleaseWrites(m1, runs, s, z);
    if s + z in runs {
      WithPrevFlagOfPack(runs[s + z].size, false, PrevFree(runs, s + z), true);
    }
    hide ReleasedAt, ReleasedSize;
    forall f {:trigger f in StillLinked(runs, h)} | f in StillLinked(runs, h)
      ensures f + NEXT in m1 ==> m2[f + NEXT] == m1[f + NEXT]
      ensures f + PREV in m1 ==> m2[f + PREV] == m1[f + PREV]
    {
      assert f in runs && runs[f].free && !(s <= f < s + z);
      if s + z in runs && f < s + z {
        assert f + runs[f].size <= s;
      }
    }
    BinsFrame(m1, m2, bins, lists, StillLinked(runs, h));
  }

  lemma ReleaseEnd(m0: Memory, m1: Memory, m3: Memory, runs: Runs, chunks: set<Chunk>, self: int, h: Addr)
    requires MemOk(m1, runs, chunks, self) && Heap(runs, chunks) && h in runs && !runs[h].free
    requires OnlyLinks(m0, m1, Free(runs).Keys)
    requires ReleasedSize(runs, h) % 4 == 0
    requires ReleasedAt(runs, h) + ReleasedSize(runs, h) in runs ==> ReleasedAt(runs, h) + ReleasedSize(runs, h) in m1
    requires var m2 := ReleaseWrites(m1, runs, ReleasedAt(runs, h), ReleasedSize(runs, h));
             && m2.Keys == m1.Keys
             && ReleaseWords(m2, runs, ReleasedAt(runs, h), ReleasedSize(runs, h))
             && OnlyLinks(m2, m3, StillLinked(runs, h).Keys + {ReleasedAt(runs, h)})
    ensures Confined(m0, m3, runs, ReleasedAt(runs, h), ReleasedAt(runs, h) + ReleasedSize(runs, h))
    ensures ReleaseWords(m3, runs, ReleasedAt(runs, h), ReleasedSize(runs, h))
  {
    hide RunOk, RunWords, Confined, Cuts, ReleaseWords, OnlyLinks, Spaced, SizesOk;
    ReleaseFits(m1, runs, chunks, self, h);
    ReleaseInside(runs, chunks, h);
    ReleaseMiddleFrame(m1, runs, ReleasedAt(runs, h), ReleasedSize(runs, h));
    var s, z := ReleasedAt(runs, h), ReleasedSize(runs, h);
    var m2 := ReleaseWrites(m1, runs, s, z);
    var still := StillLinked(runs, h);
    forall f {:trigger f in still} | f in still
      ensures f in Free(runs) && (f + MIN_RUN <= s || s + z < f)
    {
      ReleaseExtent(runs, chunks, h);
      StillApart(runs, chunks, s, z, f);
    }
    hide ReleasedAt, ReleasedSize, StillLinked, ReleaseWrites;
    EndConfined(m0, m1, m2, m3, runs, s, z, still.Keys);
    EndWords(m2, m3, runs, s, z, still.Keys);
  }

  lemma StillApart(runs: Runs, chunks: set<Chunk>, s: Addr, z: nat, f: Addr)
    requires Tiled(runs, chunks) && Cuts(runs, s, s + z) && f in runs && !(s <= f < s + z)
    requires s + z in runs ==> !runs[s + z].free
    requires runs[f].free
    ensures f + MIN_RUN <= s || s + z < f
  {
    assert RunOk(runs, chunks, f);
  }

  lemma ReleaseMiddleFrame(m1: Memory, runs: Runs, s: Addr, z: nat)
    requires z % 4 == 0 && z >= MIN_RUN && (s + z in runs ==> s + z in m1)
    ensures forall a :: a in m1 && !(s <= a < s + z) && (a == s + z ==> s + z !in runs) ==>
              ReleaseWrites(m1, runs, s, z)[a] == m1[a]
  {
  }

  lemma EndConfined(m0: Memory, m1: Memory, m2: Memory, m3: Memory, runs: Runs, s: Addr, z: nat, still: set<Addr>)
    requires OnlyLinks(m0, m1, Free(runs).Keys) && z >= MIN_RUN
    requires m2.Keys == m1.Keys
    requires forall a :: a in m1 && !(s <= a < s + z) && (a == s + z ==> s + z !in runs) ==> m2[a] == m1[a]
    requires OnlyLinks(m2, m3, still + {s})
    requires forall f {:trigger f in still} :: f in still ==> f in Free(runs)
    ensures Confined(m0, m3, runs, s, s + z)
  {
  }

  lemma EndWords(m2: Memory, m3: Memory, runs: Runs, s: Addr, z: nat, still: set<Addr>)
    requires ReleaseWords(m2, runs, s, z) && z >= MIN_RUN
    requires OnlyLinks(m2, m3, still + {s})
    requires forall f {:trigger f in still} :: f in still ==> f + MIN_RUN <= s || s + z < f
    ensures ReleaseWords(m3, runs, s, z)
  {
  }

  // Where `_next_run` leads from the merged run, once its header is written.
  lemma ReleaseNext(mem: Memory, runs: Runs, chunks: set<Chunk>, self: int, h: Addr)
    requires MemOk(mem, runs, chunks, self) && Heap(runs, chunks) && h in runs && !runs[h].free
    ensures var s, z := ReleasedAt(runs, h), ReleasedSize(runs, h);
            && s + z in mem
            && (if s + z in runs then SizeField(mem[s + z]) != 0 && s + z != 0 else SizeField(mem[s + z]) == 0)
            && s + z - WORD_BYTES != s && z > WORD_BYTES
  {
    hide RunOk, RunWords, Release;
    ReleaseKeeps(runs, chunks, h);
    ReleaseShape(runs, chunks, h);
    SizesLegal(runs, chunks);
    var s, z, after := ReleasedAt(runs, h), ReleasedSize(runs, h), Release(runs, h);
    hide ReleasedAt, ReleasedSize;
    SizesLegal(after, chunks);
    AlwaysLinked(after, chunks, s);
    if s + z in runs {
      HeaderOf(mem, runs, chunks, self, s + z);
    } else {
      HomeKnown(runs, chunks, h);
      assert EpilogueWords(mem, runs[h].home);
    }
  }

  lemma HomeKnown(runs: Runs, chunks: set<Chunk>, h: Addr)
    requires Tiled(runs, chunks) && h in runs
    ensures runs[h].home in chunks
  {
    assert RunOk(runs, chunks, h);
  }

  lemma ReleaseHeader(mem: Memory, runs: Runs, s: Addr, z: nat)
    requires z % 4 == 0 && z >= MIN_RUN && (s + z in runs ==> s + z in mem) && s in mem
    ensures SizeField(ReleaseWrites(mem, runs, s, z)[s]) == z
  {
  }

  // ---------- allocation and expansion ----------

  /** The free runs outside [lo, hi). */
  ghost predicate LinkedOutside(runs: Runs, linked: map<Addr, nat>, lo: Addr, hi: Addr) {
    && (forall f {:trigger f in linked} :: f in linked <==> f in runs && runs[f].free && !(lo <= f < hi))
    && (forall f {:trigger linked[f]} :: f in linked && f in runs ==> linked[f] == runs[f].size)
  }

  /** The bytes [h, h + total) that become one allocated run of `needed` bytes, or
      of all of them, followed by a run that is not free. */
  ghost predicate Grantable(runs: Runs, chunks: set<Chunk>, h: Addr, total: nat, needed: nat) {
    && Tiled(runs, chunks) && h in runs && Cuts(runs, h, h + total)
    && h + total <= Epilogue(runs[h].home)
    && LegalRunSize(needed) && LegalRunSize(total) && needed <= total
    && (h + total in runs ==> !runs[h + total].free)
    && (h + total !in runs ==> h + total == Epilogue(runs[h].home))
  }

  /** Headers and footer of the granted run and its remainder. */
  function GrantHeaders(mem: Memory, h: Addr, total: nat, needed: nat, prevFree: bool): Memory
    requires needed % 4 == 0 && total % 4 == 0
  {
    if Splits(total, needed) then
      mem[h := Pack(needed, false, prevFree)]
      [h + needed := Pack(total - needed, true, false)]
      [h + total - WORD_BYTES := total - needed]
    else
      mem[h := Pack(total, false, prevFree)]
  }

  /** The next run's flag and the owner word. */
  function GrantTail(mem: Memory, runs: Runs, self: int, h: Addr, total: nat, needed: nat): Memory
    requires h + total in runs ==> h + total in mem
  {
    var m := if h + total in runs then mem[h + total := WithPrevFlag(mem[h + total], Splits(total, needed))] else mem;
    m[h + WORD_BYTES := self]
  }

  // Link words of the runs outside lie outside.
  lemma LinkedApart(runs: Runs, chunks: set<Chunk>, linked: map<Addr, nat>, h: Addr, total: nat, needed: nat)
    requires Grantable(runs, chunks, h, total, needed) && LinkedOutside(runs, linked, h, h + total)
    ensures forall f {:trigger f in linked} :: f in linked ==> f + MIN_RUN <= h || h + total < f
  {
    hide RunOk;
    SizesLegal(runs, chunks);
  }

  lemma GrantFits(mem: Memory, runs: Runs, chunks: set<Chunk>, self: int, h: Addr, total: nat, needed: nat)
    requires MemOk(mem, runs, chunks, self) && Grantable(runs, chunks, h, total, needed)
    ensures h > 0 && total % 4 == 0 && needed % 4 == 0 && (total - needed) % 4 == 0 && total >= MIN_RUN
    ensures needed >= MIN_RUN
    ensures h in mem && h + WORD_BYTES in mem
    ensures Splits(total, needed) ==>
              && LegalRunSize(total - needed) && IsWord(total)
              && h + needed in mem && h + needed + NEXT in mem && h + needed + PREV in mem &&
                 h + total - WORD_BYTES in mem
    ensures h + total in mem && (h + total !in runs ==> SizeField(mem[h + total]) == 0)
    ensures h + total in runs ==>
              && runs[h + total].size % 4 == 0 && runs[h + total].size > 0 && h + total != 0
              && mem[h + total] == Pack(runs[h + total].size, false, PrevFree(runs, h + total))
  {
    hide RunOk, RunWords, LegalRunSize, Splits, Tiled, Mapped, Cuts;
    LegalPair(total, needed);
    HeaderOf(mem, runs, chunks, self, h);
    GrantMapped(mem, runs, chunks, h, total, needed);
    HomeKnown(runs, chunks, h);
    if h + total in runs {
      HeaderOf(mem, runs, chunks, self, h + total);
      assert RunWords(mem, runs, self, h + total);
      RunHeader(mem, runs, self, h + total);
    } else {
      assert EpilogueWords(mem, runs[h].home);
    }
  }

  lemma LegalPair(total: nat, needed: nat)
    requires LegalRunSize(total) && LegalRunSize(needed) && needed <= total
    ensures total % 4 == 0 && needed % 4 == 0 && (total - needed) % 4 == 0 && total >= MIN_RUN && needed >= MIN_RUN
    ensures Splits(total, needed) ==> LegalRunSize(total - needed)
  {
    LegalMultiple(total);
    LegalMultiple(needed);
    Difference16(total, needed);
  }

  lemma Difference16(a: int, b: int)
    requires a % RUN_ALIGNMENT == 0 && b % RUN_ALIGNMENT == 0
    ensures (a - b) % RUN_ALIGNMENT == 0 && (a - b) % 4 == 0
  {
    var k, l := a / RUN_ALIGNMENT, b / RUN_ALIGNMENT;
    ModOfProduct(k - l, 0, RUN_ALIGNMENT);
    ModOfProduct(4 * (k - l), 0, 4);
  }

  lemma GrantMapped(mem: Memory, runs: Runs, chunks: set<Chunk>, h: Addr, total: nat, needed: nat)
    requires Mapped(mem, chunks) && Grantable(runs, chunks, h, total, needed)
    ensures h + WORD_BYTES in mem && IsWord(total)
    ensures Splits(total, needed) ==>
              h + needed in mem && h + needed + NEXT in mem && h + needed + PREV in mem && h + total - WORD_BYTES in mem
  {
    assert RunOk(runs, chunks, h);
    var c := runs[h].home;
    assert c in chunks && ChunkOk(c) && c.begin <= h && h % 16 == 0 && needed % 16 == 0 && total % 16 == 0 &&
        needed >= MIN_RUN;
    hide RunOk, Tiled, LegalRunSize, Cuts;
    AlignedWords(h);
    AlignedSum(h, 0);
    AlignedSum(h, needed);
    AlignedSum(h, total);
    AlignedWords(h + needed);
    hide ChunkOk;
    assert WordOf(c, h + WORD_BYTES);
    if Splits(total, needed) {
      assert WordOf(c, h + needed) && WordOf(c, h + needed + NEXT) && WordOf(c, h + needed + PREV);
      assert WordOf(c, h + total - WORD_BYTES);
    }
  }

  lemma GrantHeadersKeepBins(m1: Memory, bins: seq<Addr>, lists: seq<seq<Addr>>, linked: map<Addr, nat>, h: Addr,
                             total: nat, needed: nat, prevFree: bool)
    requires BinsOk(m1, bins, lists, linked)
    requires needed % 4 == 0 && total % 4 == 0 && MIN_RUN <= needed <= total
    requires forall f {:trigger f in linked} :: f in linked ==> f + MIN_RUN <= h || h + total < f
    ensures BinsOk(GrantHeaders(m1, h, total, needed, prevFree), bins, lists, linked)
  {
    hide BinsOk;
    BinsFrame(m1, GrantHeaders(m1, h, total, needed, prevFree), bins, lists, linked);
  }

  lemma GrantTailKeepsBins(m3: Memory, bins: seq<Addr>, lists: seq<seq<Addr>>, linked: map<Addr, nat>, runs: Runs,
                           self: int, h: Addr, total: nat, needed: nat)
    requires h + total in runs ==> h + total in m3
    requires MIN_RUN <= needed <= total
    requires forall f {:trigger f in linked} :: f in linked ==>
               f + MIN_RUN <= h || h + total < f || (f == h + needed && Splits(total, needed))
    requires BinsOk(m3, bins, lists, linked)
    ensures BinsOk(GrantTail(m3, runs, self, h, total, needed), bins, lists, linked)
  {
    hide BinsOk;
    BinsFrame(m3, GrantTail(m3, runs, self, h, total, needed), bins, lists, linked);
  }

  lemma RemainderIndexable(runs: Runs, chunks: set<Chunk>, linked: map<Addr, nat>, h: Addr, total: nat, needed: nat)
    requires Grantable(runs, chunks, h, total, needed) && LinkedOutside(runs, linked, h, h + total)
    requires Splits(total, needed) && Spaced(linked) && SizesOk(linked) && h > 0 && IsWord(total)
    ensures h + needed !in linked
    ensures Spaced(linked[h + needed := total - needed]) && SizesOk(linked[h + needed := total - needed])
  {
    hide RunOk;
    WasteBound(total, needed);
    LinkedApart(runs, chunks, linked, h, total, needed);
  }

  /** What the header, relinking and tail writes of a grant amount to. */
  lemma GrantEnd(m1: Memory, m3: Memory, runs: Runs, chunks: set<Chunk>, linked: map<Addr, nat>, self: int, h: Addr,
                 total: nat, needed: nat)
    requires MemOk(m1, runs, chunks, self) && Grantable(runs, chunks, h, total, needed)
    requires LinkedOutside(runs, linked, h, h + total)
    requires needed % 4 == 0 && total % 4 == 0
    requires var m2 := GrantHeaders(m1, h, total, needed, PrevFree(runs, h));
             if Splits(total, needed) then OnlyLinks(m2, m3, linked.Keys + {h + needed}) else m3 == m2
    requires h + total in runs ==> h + total in m3
    ensures Confined(m1, GrantTail(m3, runs, self, h, total, needed), runs, h, h + total)
    ensures GrantWords(GrantTail(m3, runs, self, h, total, needed), runs, self, h, total, needed)
  {
    hide RunOk, RunWords, EpilogueWords, Cuts, Tiled, LegalRunSize, Confined, GrantWords, GrantHeaders, GrantTail;
    hide OnlyLinks, Splits, LinkedOutside, Pack;
    GrantFits(m1, runs, chunks, self, h, total, needed);
    LinkedApart(runs, chunks, linked, h, total, needed);
    OutsideFree(runs, linked, h, h + total);
    assert needed <= total;
    var prevFree := PrevFree(runs, h);
    GrantConfined(m1, m3, runs, linked.Keys, self, h, total, needed, prevFree);
    if h + total in runs {
      GrantNextKept(m1, m3, linked.Keys, h, total, needed, prevFree);
    }
    GrantWordsHold(m1, m3, runs, linked.Keys, self, h, total, needed);
  }

  lemma OutsideFree(runs: Runs, linked: map<Addr, nat>, lo: Addr, hi: Addr)
    requires LinkedOutside(runs, linked, lo, hi)
    ensures forall f {:trigger f in linked} :: f in linked ==> f in Free(runs)
  {
  }

  lemma GrantConfined(m1: Memory, m3: Memory, runs: Runs, linked: set<Addr>, self: int, h: Addr, total: nat,
                      needed: nat, prevFree: bool)
    requires needed % 4 == 0 && total % 4 == 0 && MIN_RUN <= needed <= total
    requires h in m1 && (Splits(total, needed) ==> h + needed in m1 && h + total - WORD_BYTES in m1)
    requires var m2 := GrantHeaders(m1, h, total, needed, prevFree);
             if Splits(total, needed) then OnlyLinks(m2, m3, linked + {h + needed}) else m3 == m2
    requires forall f {:trigger f in linked} :: f in linked ==> f in Free(runs)
    requires h + total in runs ==> h + total in m3
    ensures Confined(m1, GrantTail(m3, runs, self, h, total, needed), runs, h, h + total)
  {
    var m2, m4 := GrantHeaders(m1, h, total, needed, prevFree), GrantTail(m3, runs, self, h, total, needed);
    forall a | a in m1 && Outside(runs, h, h + total, a)
      ensures m4[a] == m1[a]
    {
      assert m2[a] == m1[a];
      assert m3[a] == m2[a];
    }
    assert m1.Keys <= m2.Keys;
    assert m2.Keys <= m3.Keys;
    assert m3.Keys <= m4.Keys;
  }

  // Until the tail is written, the header behind the granted bytes is untouched
  // and the last run before it has its header.
  lemma GrantNextKept(m1: Memory, m3: Memory, linked: set<Addr>, h: Addr, total: nat, needed: nat, prevFree: bool)
    requires needed % 4 == 0 && total % 4 == 0 && MIN_RUN <= needed <= total
    requires var m2 := GrantHeaders(m1, h, total, needed, prevFree);
             if Splits(total, needed) then OnlyLinks(m2, m3, linked + {h + needed}) else m3 == m2
    requires forall f {:trigger f in linked} :: f in linked ==> f + MIN_RUN <= h || h + total < f
    requires h + total in m1
    ensures h + total in m3 && m3[h + total] == m1[h + total]
    ensures var rem := if Splits(total, needed) then h + needed else h;
            var size := h + total - rem;
            && size % 4 == 0 && rem in m3
            && m3[rem] == Pack(size, Splits(total, needed), !Splits(total, needed) && prevFree)
  {
  }

  lemma GrantWordsHold(m1: Memory, m3: Memory, runs: Runs, linked: set<Addr>, self: int, h: Addr, total: nat,
                       needed: nat)
    requires h in runs && needed % 4 == 0 && total % 4 == 0 && MIN_RUN <= needed <= total
    requires h in m1 && (Splits(total, needed) ==> h + needed in m1 && h + total - WORD_BYTES in m1)
    requires var m2 := GrantHeaders(m1, h, total, needed, PrevFree(runs, h));
             if Splits(total, needed) then OnlyLinks(m2, m3, linked + {h + needed}) else m3 == m2
    requires forall f {:trigger f in linked} :: f in linked ==> f + MIN_RUN <= h || h + total < f
    requires h + total in runs ==>
               && !runs[h + total].free && runs[h + total].size % 4 == 0
               && h + total in m3 && m3[h + total] == Pack(runs[h + total].size, false, PrevFree(runs, h + total))
    ensures GrantWords(GrantTail(m3, runs, self, h, total, needed), runs, self, h, total, needed)
  {
    hide SizeField, FreeFlag, PrevFlag, PrevFree, WithPrevFlag, Pack;
    if h + total in runs {
      WithPrevFlagOfPack(runs[h + total].size, false, PrevFree(runs, h + total), Splits(total, needed));
    }
  }

  lemma ConfinedAfterLinks(m0: Memory, m1: Memory, m4: Memory, runs: Runs, lo: Addr, hi: Addr)
    requires OnlyLinks(m0, m1, Free(runs).Keys) && Confined(m1, m4, runs, lo, hi)
    ensures Confined(m0, m4, runs, lo, hi)
  {
    assert m0.Keys <= m1.Keys;
    assert m1.Keys <= m4.Keys;
  }

  lemma FreeAfterGrant(runs: Runs, after: Runs, linked: map<Addr, nat>, h: Addr, total: nat, needed: nat)
    requires h in runs && Granted(runs, after, h, total, needed) && 0 < needed <= total
    requires LinkedOutside(runs, linked, h, h + total)
    ensures Free(after) == if Splits(total, needed) then linked[h + needed := total - needed] else linked
  {
    var expected := if Splits(total, needed) then linked[h + needed := total - needed] else linked;
    forall x: Addr
      ensures x in Free(after) <==> x in expected
      ensures x in Free(after) ==> Free(after)[x] == expected[x]
    {
    }
  }

  lemma CarveGrantable(runs: Runs, chunks: set<Chunk>, h: Addr, needed: nat)
    requires Heap(runs, chunks) && h in runs && runs[h].free
    requires LegalRunSize(needed) && needed <= runs[h].size
    ensures Grantable(runs, chunks, h, runs[h].size, needed)
    ensures Cuts(runs, h, h + runs[h].size) && h + runs[h].size <= Epilogue(runs[h].home)
    ensures LinkedOutside(runs, Free(runs) - {h}, h, h + runs[h].size)
    ensures h + runs[h].size in runs ==> !runs[h + runs[h].size].free
    ensures forall x :: x in runs && h < x < h + runs[h].size ==> runs[x].free
    ensures needed > 0
  {
    assert RunOk(runs, chunks, h);
    hide RunOk, LegalRunSize;
    RunExtent(runs, chunks, h);
    AlwaysLinked(runs, chunks, h);
    SizesPositive(runs, chunks);
    var n := h + runs[h].size;
    assert n in runs ==> PrevFree(runs, n);
    LegalPair(runs[h].size, needed);
  }

  // A grant writes no payload word before the remainder.
  lemma GrantPayloadKept(m1: Memory, m3: Memory, linked: set<Addr>, runs: Runs, self: int, h: Addr, total: nat,
                         needed: nat, prevFree: bool)
    requires needed % 4 == 0 && total % 4 == 0 && MIN_RUN <= needed <= total
    requires var m2 := GrantHeaders(m1, h, total, needed, prevFree);
             if Splits(total, needed) then OnlyLinks(m2, m3, linked + {h + needed}) else m3 == m2
    requires forall f {:trigger f in linked} :: f in linked ==> f + MIN_RUN <= h || h + total < f
    requires h + total in runs ==> h + total in m3
    ensures SameWords(m1, GrantTail(m3, runs, self, h, total, needed), h + HEADER_SIZE, h + needed)
  {
  }

  ghost predicate SameWords(before: Memory, after: Memory, lo: Addr, hi: Addr) {
    forall a {:trigger after[a]} {:trigger a in after} :: lo <= a < hi && a in before ==>
      a in after && after[a] == before[a]
  }

  lemma SameEverywhere(mem: Memory, lo: Addr, hi: Addr)
    ensures SameWords(mem, mem, lo, hi)
  {
  }

  lemma LinksKeepPayload(m0: Memory, m1: Memory, runs: Runs, chunks: set<Chunk>, h: Addr)
    requires OnlyLinks(m0, m1, Free(runs).Keys) && Tiled(runs, chunks) && h in runs && !runs[h].free
    ensures SameWords(m0, m1, h + HEADER_SIZE, h + runs[h].size)
  {
    hide Tiled;
    forall a | h + HEADER_SIZE <= a < h + runs[h].size && a in m0
      ensures a in m1 && m1[a] == m0[a]
    {
      OwnWord(runs, chunks, h, a);
    }
  }

  lemma SameWordsTwice(m0: Memory, m1: Memory, m2: Memory, lo: Addr, hi: Addr, hi2: Addr)
    requires SameWords(m0, m1, lo, hi) && SameWords(m1, m2, lo, hi2) && hi <= hi2
    ensures SameWords(m0, m2, lo, hi)
  {
    forall a | lo <= a < hi && a in m0
      ensures a in m2 && m2[a] == m0[a]
    {
      assert a in m1 && m1[a] == m0[a];
    }
  }

  // Between a run and the end of the next one, no run starts but that next one.
  lemma OnlyThatBetween(runs: Runs, chunks: set<Chunk>, h: Addr)
    requires Tiled(runs, chunks) && h in runs && h + runs[h].size in runs
    ensures var n := h + runs[h].size;
            runs[h].size > 0 && runs[n].size > 0 && forall x {:trigger x in runs} :: x in runs && h < x < n + runs[n].size ==> x == n
  {
    hide RunOk;
    SizesPositive(runs, chunks);
  }

  lemma PairLegal(runs: Runs, chunks: set<Chunk>, h: Addr)
    requires Tiled(runs, chunks) && h in runs && h + runs[h].size in runs
    ensures LegalRunSize(runs[h].size + runs[h + runs[h].size].size) && runs[h + runs[h].size].home == runs[h].home
  {
    var n := h + runs[h].size;
    assert RunOk(runs, chunks, h) && RunOk(runs, chunks, n);
    LegalSum(runs[h].size, runs[n].size);
    hide RunOk, LegalRunSize;
    AlwaysLinked(runs, chunks, h);
  }

  // Behind a free run comes an allocated one or the epilogue.
  lemma BehindFree(runs: Runs, chunks: set<Chunk>, n: Addr)
    requires Heap(runs, chunks) && n in runs && runs[n].free
    ensures var m := n + runs[n].size;
            (m in runs ==> !runs[m].free) && (m !in runs ==> m == Epilogue(runs[n].home))
  {
    hide RunOk;
    AlwaysLinked(runs, chunks, n);
    SizesPositive(runs, chunks);
    var m := n + runs[n].size;
    assert m in runs ==> PrevFree(runs, m);
  }

  lemma FreeButNext(runs: Runs, h: Addr)
    requires h in runs && !runs[h].free && NextFree(runs, h)
    requires var n := h + runs[h].size;
             runs[h].size > 0 && runs[n].size > 0 && forall x {:trigger x in runs} :: x in runs && h < x < n + runs[n].size ==> x == n
    ensures var n := h + runs[h].size;
            LinkedOutside(runs, Free(runs) - {n}, h, n + runs[n].size)
  {
  }

  lemma StretchGrantable(runs: Runs, chunks: set<Chunk>, h: Addr, needed: nat)
    requires Heap(runs, chunks) && h in runs && !runs[h].free && NextFree(runs, h)
    requires LegalRunSize(needed) && needed <= runs[h].size + runs[h + runs[h].size].size
    ensures var n := h + runs[h].size;
            var total := runs[h].size + runs[n].size;
            && Grantable(runs, chunks, h, total, needed)
            && Cuts(runs, h, h + total) && h + total <= Epilogue(runs[h].home)
            && LinkedOutside(runs, Free(runs) - {n}, h, h + total)
            && (h + total in runs ==> !runs[h + total].free)
            && (forall x :: x in runs && h < x < h + total ==> runs[x].free)
            && needed > 0
  {
    var n := h + runs[h].size;
    hide RunOk, LegalRunSize, Tiled, Coalesced, Cuts, LinkedOutside;
    PairLegal(runs, chunks, h);
    LegalPair(needed, needed);
    PairExtent(runs, chunks, h);
    OnlyThatBetween(runs, chunks, h);
    FreeButNext(runs, h);
    BehindFree(runs, chunks, n);
  }

  // ---------- a new chunk ----------

  /** The words `_initialize_free_run` writes before linking the new run. */
  function ChunkHeaders(mem: Memory, c: Chunk): Memory
    requires c.bytes >= MIN_CHUNK && c.bytes % RUN_ALIGNMENT == 0
  {
    var size := c.bytes - EPILOGUE_SIZE;
    assert size % 4 == 0 by { LegalMultipleOfChunk(c); }
    mem[c.begin := Pack(size, true, false)][c.begin + size - WORD_BYTES := size]
  }

  /** ... and the epilogue, written after that. */
  function ChunkTail(mem: Memory, c: Chunk): Memory {
    mem[Epilogue(c) := Pack(0, false, true)][Epilogue(c) + WORD_BYTES := 0]
  }

  lemma LegalMultipleOfChunk(c: Chunk)
    requires c.bytes >= MIN_CHUNK && c.bytes % RUN_ALIGNMENT == 0
    ensures (c.bytes - EPILOGUE_SIZE) % 4 == 0 && LegalRunSize(c.bytes - EPILOGUE_SIZE)
  {
    Difference16(c.bytes, EPILOGUE_SIZE);
  }

  // The words of fresh memory lie outside every run there is.
  lemma ChunkLinkable(m0: Memory, words: Memory, runs: Runs, chunks: set<Chunk>, c: Chunk, bins: seq<Addr>,
                      lists: seq<seq<Addr>>)
    requires Heap(runs, chunks) && ChunkOk(c) && forall d :: d in chunks ==> Apart(c, d)
    requires BinsOk(m0, bins, lists, Free(runs))
    requires forall w :: w in words <==> WordOf(c, w)
    ensures BinsOk(ChunkHeaders(m0 + words, c), bins, lists, Free(runs))
    ensures c.begin !in Free(runs)
    ensures var size := c.bytes - EPILOGUE_SIZE;
            && Spaced(Free(runs)[c.begin := size]) && SizesOk(Free(runs)[c.begin := size])
            && Free(WithChunk(runs, c)) == Free(runs)[c.begin := size]
  {
    hide RunOk, BinsOk;
    var m1 := m0 + words;
    var m2 := ChunkHeaders(m1, c);
    ChunkKeeps(runs, chunks, c);
    SizesLegal(runs, chunks);
    forall h {:trigger h in Free(runs)} | h in Free(runs)
      ensures h + NEXT in m0 ==> m2[h + NEXT] == m0[h + NEXT]
      ensures h + PREV in m0 ==> m2[h + PREV] == m0[h + PREV]
    {
      assert h in runs;
    }
    assert m0.Keys <= m1.Keys;
    assert m1.Keys <= m2.Keys;
    BinsFrame(m0, m2, bins, lists, Free(runs));
    FreeIndexable(WithChunk(runs, c), chunks + {c});
    FreeWithChunk(runs, c);
  }

  lemma FreeWithChunk(runs: Runs, c: Chunk)
    requires c.bytes >= MIN_CHUNK && c.begin !in runs
    ensures Free(WithChunk(runs, c)) == Free(runs)[c.begin := c.bytes - EPILOGUE_SIZE]
  {
  }

  lemma ChunkEnd(m0: Memory, words: Memory, m3: Memory, runs: Runs, chunks: set<Chunk>, self: int, c: Chunk,
                 bins: seq<Addr>, lists: seq<seq<Addr>>)
    requires Heap(runs, chunks) && MemOk(m0, runs, chunks, self)
    requires ChunkOk(c) && forall d :: d in chunks ==> Apart(c, d)
    requires forall w :: w in words <==> WordOf(c, w)
    requires OnlyLinks(ChunkHeaders(m0 + words, c), m3, Free(runs).Keys + {c.begin})
    requires BinsOk(m3, bins, lists, Free(runs)[c.begin := c.bytes - EPILOGUE_SIZE])
    ensures var m4 := ChunkTail(m3, c);
            && Confined(m0, m4, runs, c.begin, LastByte(c))
            && ChunkWords(m4, c)
            && BinsOk(m4, bins, lists, Free(runs)[c.begin := c.bytes - EPILOGUE_SIZE])
  {
    hide RunOk, BinsOk, MemOk, Disjoint;
    var m1 := m0 + words;
    var m2 := ChunkHeaders(m1, c);
    var m4 := ChunkTail(m3, c);
    var linked := Free(runs)[c.begin := c.bytes - EPILOGUE_SIZE];
    ChunkKeeps(runs, chunks, c);
    SizesLegal(runs, chunks);
    forall h {:trigger h in linked} | h in linked
      ensures h == c.begin || h + MIN_RUN <= c.begin || c.begin + c.bytes <= h
    {
    }
    hide Heap, Tiled;
    ChunkEndBins(m3, c, bins, lists, linked);
    ChunkEndWords(m0, words, m3, runs, c);
    ChunkEndConfined(m0, words, m3, runs, c);
  }

  lemma ChunkEndBins(m3: Memory, c: Chunk, bins: seq<Addr>, lists: seq<seq<Addr>>, linked: map<Addr, nat>)
    requires BinsOk(m3, bins, lists, linked) && c.bytes >= MIN_CHUNK
    requires forall h {:trigger h in linked} :: h in linked ==>
               h == c.begin || h + MIN_RUN <= c.begin || c.begin + c.bytes <= h
    ensures BinsOk(ChunkTail(m3, c), bins, lists, linked)
  {
    hide BinsOk;
    BinsFrame(m3, ChunkTail(m3, c), bins, lists, linked);
  }

  lemma ChunkEndWords(m0: Memory, words: Memory, m3: Memory, runs: Runs, c: Chunk)
    requires ChunkOk(c) && forall w :: w in words <==> WordOf(c, w)
    requires forall h :: h in runs ==> h + runs[h].size <= c.begin || c.begin + c.bytes <= h
    requires forall h :: h in runs ==> runs[h].size >= MIN_RUN
    requires OnlyLinks(ChunkHeaders(m0 + words, c), m3, Free(runs).Keys + {c.begin})
    ensures ChunkWords(ChunkTail(m3, c), c)
  {
    var m2 := ChunkHeaders(m0 + words, c);
    LegalMultipleOfChunk(c);
    var size := c.bytes - EPILOGUE_SIZE;
    assert m2[c.begin] == Pack(size, true, false) && m2[c.begin + size - WORD_BYTES] == size;
    assert m3[c.begin] == m2[c.begin];
    assert m3[c.begin + size - WORD_BYTES] == m2[c.begin + size - WORD_BYTES];
    forall a | WordOf(c, a)
      ensures a in ChunkTail(m3, c)
    {
      assert a in words && a in m2;
      assert a in m3;
    }
  }

  lemma ChunkEndConfined(m0: Memory, words: Memory, m3: Memory, runs: Runs, c: Chunk)
    requires ChunkOk(c) && forall w :: w in words <==> WordOf(c, w)
    requires OnlyLinks(ChunkHeaders(m0 + words, c), m3, Free(runs).Keys + {c.begin})
    ensures Confined(m0, ChunkTail(m3, c), runs, c.begin, LastByte(c))
  {
    var m1 := m0 + words;
    var m2 := ChunkHeaders(m1, c);
    var m4 := ChunkTail(m3, c);
    LastByteNoWord(c);
    forall a | a in m0 && Outside(runs, c.begin, LastByte(c), a)
      ensures m4[a] == m0[a]
    {
      assert a !in words;
      assert m2[a] == m0[a];
      assert m3[a] == m2[a];
    }
    assert m0.Keys <= m1.Keys;
    assert m1.Keys <= m2.Keys;
    assert m2.Keys <= m3.Keys;
    assert m3.Keys <= m4.Keys;
  }

  lemma LastByteNoWord(c: Chunk)
    requires c.begin % RUN_ALIGNMENT == 0 && c.bytes % RUN_ALIGNMENT == 0
    ensures !WordOf(c, LastByte(c))
  {
    var e := c.begin + c.bytes;
    AlignedSum(c.begin, c.bytes);
    var k := (e - WORD_BYTES) / WORD_BYTES;
    assert LastByte(c) == WORD_BYTES * k + 7;
  }
}
