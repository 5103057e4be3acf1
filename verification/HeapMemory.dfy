/** How the tiling is written down in memory: packed header words, owner words,
    footers and epilogues; and which words an operation may change. */
module HeapMemory {
  import opened Words
  import opened SizeClasses
  import opened Tiling
  import opened HeapOps
  import opened FreeLists

  const WORD_BYTES: int := 8

  // ---------- header words ----------

  function SizeField(w: int): int {
    w - w % 4
  }

  predicate FreeFlag(w: int) {
    w % 2 == 1
  }

  predicate PrevFlag(w: int) {
    w % 4 >= 2
  }

  lemma LowBits(q: nat, flags: nat)
    requires flags < 4
    ensures (q * 4 + flags) % 4 == flags && (q * 4 + flags) % 2 == flags % 2
  {
    ModOfProduct(q, flags, 4);
    ModOfProduct(2 * q + flags / 2, flags % 2, 2);
  }

  /** Size and flags in one word; reading the fields back gives what was packed. */
  function Pack(bytes: nat, free: bool, prevFree: bool): (w: nat)
    requires bytes % 4 == 0
    ensures SizeField(w) == bytes
    ensures FreeFlag(w) <==> free
    ensures PrevFlag(w) <==> prevFree
  {
    LowBits(bytes / 4, (if free then 1 else 0) + (if prevFree then 2 else 0));
    bytes + (if free then 1 else 0) + (if prevFree then 2 else 0)
  }

  function WithPrevFlag(w: int, prevFree: bool): int {
    if PrevFlag(w) == prevFree then w else if prevFree then w + 2 else w - 2
  }

  lemma WithPrevFlagOfPack(bytes: nat, free: bool, before: bool, after: bool)
    requires bytes % 4 == 0
    ensures WithPrevFlag(Pack(bytes, free, before), after) == Pack(bytes, free, after)
  {
  }

  // ---------- agreement of memory and tiling ----------

  ghost predicate RunWords(mem: Memory, runs: Runs, self: int, h: Addr)
    requires h in runs
  {
    var r := runs[h];
    && r.size % 4 == 0
    && h in mem && mem[h] == Pack(r.size, r.free, PrevFree(runs, h))
    && (r.free ==> h + r.size - WORD_BYTES in mem && mem[h + r.size - WORD_BYTES] == r.size)
    && (!r.free ==> h + WORD_BYTES in mem && mem[h + WORD_BYTES] == self)
  }

  /** The epilogue is written once, with its prev-free flag set, and never again:
      the flag does not follow the state of the last run. */
  ghost predicate EpilogueWords(mem: Memory, c: Chunk) {
    && Epilogue(c) in mem && mem[Epilogue(c)] == Pack(0, false, true)
    && Epilogue(c) + WORD_BYTES in mem && mem[Epilogue(c) + WORD_BYTES] == 0
  }

  ghost predicate WordOf(c: Chunk, a: Addr) {
    c.begin <= a < c.begin + c.bytes && a % WORD_BYTES == 0
  }

  ghost predicate Mapped(mem: Memory, chunks: set<Chunk>) {
    forall c, a :: c in chunks && WordOf(c, a) ==> a in mem
  }

  ghost predicate MemOk(mem: Memory, runs: Runs, chunks: set<Chunk>, self: int) {
    && Mapped(mem, chunks)
    && (forall h {:trigger RunWords(mem, runs, self, h)} :: h in runs ==> RunWords(mem, runs, self, h))
    && (forall c :: c in chunks ==> EpilogueWords(mem, c))
  }

  /** Word `a` belongs to the payload of the allocated run `h`. */
  ghost predicate InPayload(runs: Runs, h: Addr, a: Addr) {
    h in runs && !runs[h].free && h + HEADER_SIZE <= a < h + runs[h].size
  }

  /** Every allocated payload except that of `h` is kept word for word. */
  ghost predicate PayloadsKept(before: Memory, after: Memory, runs: Runs, h: Addr) {
    forall x, a {:trigger InPayload(runs, x, a)} ::
      InPayload(runs, x, a) && x != h && a in before ==> a in after && after[a] == before[a]
  }

  /** Every allocated payload except those of `hs` is kept word for word. */
  ghost predicate OtherPayloadsKept(before: Memory, after: Memory, runs: Runs, hs: seq<Addr>) {
    forall x, a {:trigger InPayload(runs, x, a)} ::
      InPayload(runs, x, a) && x !in hs && a in before ==> a in after && after[a] == before[a]
  }

  /** Between `before` and `after`, only words of [lo, hi), the header word at `hi`
      where a run starts there, and link words of free runs differ. */
  ghost predicate Confined(before: Memory, after: Memory, runs: Runs, lo: Addr, hi: Addr) {
    && before.Keys <= after.Keys
    && forall a {:trigger after[a]} :: a in before && Outside(runs, lo, hi, a) ==> after[a] == before[a]
  }

  /** Words outside every chunk are kept. */
  ghost predicate ElsewhereKept(before: Memory, after: Memory, chunks: set<Chunk>) {
    forall a {:trigger after[a]} {:trigger a in after} :: a in before && Elsewhere(chunks, a) ==>
      a in after && after[a] == before[a]
  }

  ghost predicate Elsewhere(chunks: set<Chunk>, a: Addr) {
    forall c :: c in chunks ==> !(c.begin <= a < c.begin + c.bytes)
  }

  ghost predicate Outside(runs: Runs, lo: Addr, hi: Addr, a: Addr) {
    !(lo <= a < hi) && (a == hi ==> hi !in runs) && a - NEXT !in Free(runs) && a - PREV !in Free(runs)
  }

  // A word of run x is no link word of another run.
  lemma OwnWord(runs: Runs, chunks: set<Chunk>, x: Addr, a: Addr)
    requires Tiled(runs, chunks) && x in runs && x <= a < x + runs[x].size
    requires runs[x].free ==> a != x + NEXT && a != x + PREV
    ensures a - NEXT !in Free(runs) && a - PREV !in Free(runs)
  {
    if a - NEXT in runs {
      assert RunOk(runs, chunks, a - NEXT);
    }
    if a - PREV in runs {
      assert RunOk(runs, chunks, a - PREV);
    }
  }

  // lo and hi are where runs start or end, so a run lies on one side.
  ghost predicate Cuts(runs: Runs, lo: Addr, hi: Addr) {
    && lo < hi
    && forall x {:trigger x in runs} :: x in runs ==>
         if lo <= x < hi then x + runs[x].size <= hi else x + runs[x].size <= lo || hi <= x
  }

  lemma OtherRunKept(before: Memory, after: Memory, runs: Runs, runs': Runs, chunks: set<Chunk>, self: int, lo: Addr,
                     hi: Addr, x: Addr)
    requires Tiled(runs, chunks) && Cuts(runs, lo, hi) && Confined(before, after, runs, lo, hi)
    requires x in runs && x in runs' && runs'[x] == runs[x] && PrevFree(runs', x) == PrevFree(runs, x)
    requires !(lo <= x < hi) && x != hi
    requires RunWords(before, runs, self, x)
    ensures RunWords(after, runs', self, x)
  {
    assert RunOk(runs, chunks, x);
    hide RunOk, Tiled;
    OwnWord(runs, chunks, x, x);
    OwnWord(runs, chunks, x, x + WORD_BYTES);
    OwnWord(runs, chunks, x, x + runs[x].size - WORD_BYTES);
  }

  lemma EpilogueKept(before: Memory, after: Memory, runs: Runs, chunks: set<Chunk>, lo: Addr, hi: Addr, c: Chunk)
    requires Tiled(runs, chunks) && Confined(before, after, runs, lo, hi) && c in chunks
    requires lo in runs && hi <= Epilogue(runs[lo].home)
    requires EpilogueWords(before, c)
    ensures EpilogueWords(after, c)
  {
    var e := Epilogue(c);
    var d := runs[lo].home;
    assert RunOk(runs, chunks, lo);
    assert c != d ==> Apart(c, d);
    hide RunOk, ChunkOk;
    NoRunNear(runs, chunks, c, e);
    NoRunNear(runs, chunks, c, e - NEXT);
    NoRunNear(runs, chunks, c, e - PREV);
    NoRunNear(runs, chunks, c, e + WORD_BYTES);
    NoRunNear(runs, chunks, c, e + WORD_BYTES - NEXT);
    NoRunNear(runs, chunks, c, e + WORD_BYTES - PREV);
  }

  lemma NoRunNear(runs: Runs, chunks: set<Chunk>, c: Chunk, a: Addr)
    requires Tiled(runs, chunks) && c in chunks && Epilogue(c) - MIN_RUN < a < Epilogue(c) + EPILOGUE_SIZE
    ensures a !in runs
  {
    assert forall d :: d in chunks && d != c ==> Apart(d, c);
    assert a in runs ==> RunOk(runs, chunks, a);
  }

  /** An operation confined to [lo, hi) keeps every payload outside it. */
  lemma ConfinedKeepsPayloads(before: Memory, after: Memory, runs: Runs, chunks: set<Chunk>, lo: Addr, hi: Addr,
                              h: Addr)
    requires Tiled(runs, chunks) && Cuts(runs, lo, hi) && Confined(before, after, runs, lo, hi)
    requires forall x :: x in runs && lo <= x < hi && !runs[x].free ==> x == h
    ensures PayloadsKept(before, after, runs, h)
  {
    hide Tiled;
    forall x, a | InPayload(runs, x, a) && x != h && a in before
      ensures a in after && after[a] == before[a]
    {
      OwnWord(runs, chunks, x, a);
    }
  }

  /** ... and every word outside the chunks. */
  lemma ConfinedKeepsElsewhere(before: Memory, after: Memory, runs: Runs, chunks: set<Chunk>, lo: Addr, hi: Addr)
    requires Tiled(runs, chunks) && Confined(before, after, runs, lo, hi) && lo in runs && hi <= Epilogue(runs[lo].home)
    ensures ElsewhereKept(before, after, chunks)
  {
    hide Disjoint;
    forall a | a in before && Elsewhere(chunks, a)
      ensures a in after && after[a] == before[a]
    {
      RunInChunk(runs, chunks, lo);
      NotElsewhere(runs, chunks, a);
      NotElsewhere(runs, chunks, a - NEXT);
      NotElsewhere(runs, chunks, a - PREV);
    }
  }

  lemma RunInChunk(runs: Runs, chunks: set<Chunk>, x: Addr)
    requires Tiled(runs, chunks) && x in runs
    ensures var c := runs[x].home; c in chunks && ChunkOk(c) && c.begin <= x && x + runs[x].size <= Epilogue(c) && runs[x].size >= MIN_RUN
  {
    assert RunOk(runs, chunks, x);
  }

  lemma NotElsewhere(runs: Runs, chunks: set<Chunk>, x: Addr)
    requires Tiled(runs, chunks)
    ensures x in runs ==> forall a :: x <= a < x + MIN_RUN ==> !Elsewhere(chunks, a)
  {
    if x in runs {
      RunInChunk(runs, chunks, x);
    }
  }

  lemma ElsewhereTwice(m0: Memory, m1: Memory, m2: Memory, c1: set<Chunk>, c2: set<Chunk>)
    requires ElsewhereKept(m0, m1, c1) && ElsewhereKept(m1, m2, c2) && c1 <= c2
    ensures ElsewhereKept(m0, m2, c2)
  {
    forall a | a in m0 && Elsewhere(c2, a)
      ensures a in m2 && m2[a] == m0[a]
    {
      assert Elsewhere(c1, a);
    }
  }

  ghost predicate SameRun(runs: Runs, runs': Runs, x: Addr)
    requires x in runs'
  {
    x in runs && runs'[x] == runs[x] && PrevFree(runs', x) == PrevFree(runs, x)
  }

  /** An operation confined to [lo, hi) keeps memory and tiling in agreement if it
      leaves the runs outside alone and writes those inside (and at hi) properly. */
  lemma MemStep(before: Memory, after: Memory, runs: Runs, runs': Runs, chunks: set<Chunk>, self: int, lo: Addr,
                hi: Addr)
    requires MemOk(before, runs, chunks, self) && Tiled(runs, chunks)
    requires Cuts(runs, lo, hi) && Confined(before, after, runs, lo, hi)
    requires lo in runs && lo < hi <= Epilogue(runs[lo].home)
    requires forall x {:trigger SameRun(runs, runs', x)} :: x in runs' && !(lo <= x <= hi) ==> SameRun(runs, runs', x)
    requires forall x {:trigger RunWords(after, runs', self, x)} :: x in runs' && lo <= x <= hi ==>
               RunWords(after, runs', self, x)
    ensures MemOk(after, runs', chunks, self)
  {
    hide RunWords, EpilogueWords, Cuts, Tiled;
    forall x | x in runs'
      ensures RunWords(after, runs', self, x)
    {
      if !(lo <= x <= hi) {
        assert SameRun(runs, runs', x);
        assert RunWords(before, runs, self, x);
        OtherRunKept(before, after, runs, runs', chunks, self, lo, hi, x);
      }
    }
    forall c | c in chunks
      ensures EpilogueWords(after, c)
    {
      EpilogueKept(before, after, runs, chunks, lo, hi, c);
    }
  }

  // ---------- the three operations ----------

  // One run, or two adjacent ones, end where the next one starts.
  lemma RunExtent(runs: Runs, chunks: set<Chunk>, h: Addr)
    requires Tiled(runs, chunks) && h in runs
    ensures Cuts(runs, h, h + runs[h].size) && h + runs[h].size <= Epilogue(runs[h].home)
  {
    assert RunOk(runs, chunks, h);
    hide RunOk;
    SizesPositive(runs, chunks);
  }

  lemma PairExtent(runs: Runs, chunks: set<Chunk>, h: Addr)
    requires Tiled(runs, chunks) && h in runs && h + runs[h].size in runs
    ensures var hi := h + runs[h].size + runs[h + runs[h].size].size;
            Cuts(runs, h, hi) && hi <= Epilogue(runs[h].home)
  {
    var n := h + runs[h].size;
    assert RunOk(runs, chunks, n);
    hide RunOk;
    SizesPositive(runs, chunks);
    AlwaysLinked(runs, chunks, h);
  }

  lemma ReleaseExtent(runs: Runs, chunks: set<Chunk>, h: Addr)
    requires Heap(runs, chunks) && h in runs && !runs[h].free
    ensures var s, z := ReleasedAt(runs, h), ReleasedSize(runs, h);
            s in runs && Cuts(runs, s, s + z) && s + z <= Epilogue(runs[s].home) && runs[s].home == runs[h].home
  {
    hide RunOk;
    RunExtent(runs, chunks, h);
    if NextFree(runs, h) {
      PairExtent(runs, chunks, h);
    }
    if PrevFree(runs, h) {
      PairExtent(runs, chunks, h - runs[h].back);
      AlwaysLinked(runs, chunks, h - runs[h].back);
    }
  }

  // The words release leaves for the merged run and for the run behind it.
  ghost predicate ReleaseWords(after: Memory, runs: Runs, s: Addr, z: nat) {
    && z % 4 == 0
    && s in after && after[s] == Pack(z, true, false)
    && s + z - WORD_BYTES in after && after[s + z - WORD_BYTES] == z
    && (s + z in runs ==> runs[s + z].size % 4 == 0 && s + z in after && after[s + z] == Pack(runs[s + z].size, false, true))
  }

  lemma LegalMultiple(n: int)
    requires LegalRunSize(n)
    ensures n % 4 == 0 && n % WORD_BYTES == 0
  {
  }

  lemma MergeSameRun(runs: Runs, runs': Runs, chunks: set<Chunk>, s: Addr, z: nat, x: Addr)
    requires Tiled(runs, chunks) && s in runs && Merged(runs, runs', s, z, true) && Cuts(runs, s, s + z)
    requires x in runs' && !(s <= x <= s + z)
    ensures SameRun(runs, runs', x)
  {
    hide RunOk;
    SizesPositive(runs, chunks);
  }

  lemma MergeRunWords(before: Memory, after: Memory, runs: Runs, runs': Runs, chunks: set<Chunk>, self: int, s: Addr,
                      z: nat, x: Addr)
    requires MemOk(before, runs, chunks, self) && Tiled(runs, chunks) && s in runs && !PrevFree(runs, s)
    requires Merged(runs, runs', s, z, true) && Cuts(runs, s, s + z)
    requires Confined(before, after, runs, s, s + z)
    requires ReleaseWords(after, runs, s, z)
    requires s + z in runs ==> !runs[s + z].free
    requires x in runs' && s <= x <= s + z
    ensures RunWords(after, runs', self, x)
  {
    hide RunOk, Disjoint;
    if x == s {
      assert forall y :: y in runs' && y < s ==> y in runs;
      PrevFreeKept(runs, runs', chunks, s);
    } else {
      assert RunWords(before, runs, self, x);
      SizesLegal(runs, chunks);
      OwnWord(runs, chunks, x, x + WORD_BYTES);
    }
  }

  /** The words `deallocate_bytes` writes keep memory and tiling in agreement and
      touch no other allocated payload. */
  lemma ReleaseInMemory(before: Memory, after: Memory, runs: Runs, chunks: set<Chunk>, self: int, h: Addr)
    requires MemOk(before, runs, chunks, self) && Heap(runs, chunks) && h in runs && !runs[h].free
    requires Confined(before, after, runs, ReleasedAt(runs, h), ReleasedAt(runs, h) + ReleasedSize(runs, h))
    requires ReleaseWords(after, runs, ReleasedAt(runs, h), ReleasedSize(runs, h))
    ensures MemOk(after, Release(runs, h), chunks, self)
    ensures PayloadsKept(before, after, runs, h) && ElsewhereKept(before, after, chunks)
  {
    hide ElsewhereKept, Elsewhere, RunOk, Release, MemOk, ReleasedAt, ReleasedSize, Confined, Cuts, PayloadsKept;
    hide Merged, Disjoint, ReleaseWords;
    var s, z, runs' := ReleasedAt(runs, h), ReleasedSize(runs, h), Release(runs, h);
    ReleaseShape(runs, chunks, h);
    ReleaseExtent(runs, chunks, h);
    ReleaseInterior(runs, chunks, h);
    ConfinedKeepsPayloads(before, after, runs, chunks, s, s + z, h);
    ConfinedKeepsElsewhere(before, after, runs, chunks, s, s + z);
    forall x | x in runs' && !(s <= x <= s + z)
      ensures SameRun(runs, runs', x)
    {
      MergeSameRun(runs, runs', chunks, s, z, x);
    }
    forall x | x in runs' && s <= x <= s + z
      ensures RunWords(after, runs', self, x)
    {
      MergeRunWords(before, after, runs, runs', chunks, self, s, z, x);
    }
    MemStep(before, after, runs, runs', chunks, self, s, s + z);
  }

  lemma PrevFreeKept(runs: Runs, runs': Runs, chunks: set<Chunk>, s: Addr)
    requires Tiled(runs, chunks) && s in runs && s in runs' && runs'[s].back == runs[s].back
    requires forall x :: x in runs && x < s ==> x in runs' && runs'[x] == runs[x]
    requires forall x :: x in runs' && x < s ==> x in runs
    ensures PrevFree(runs', s) == PrevFree(runs, s)
  {
  }

  lemma SizesLegal(runs: Runs, chunks: set<Chunk>)
    requires Tiled(runs, chunks)
    ensures forall x :: x in runs ==> runs[x].size >= MIN_RUN
  {
    forall x | x in runs
      ensures runs[x].size >= MIN_RUN
    {
      assert RunOk(runs, chunks, x);
    }
  }

  // The words allocation and expansion leave for the granted run, the remainder
  // and the run behind them.
  ghost predicate GrantWords(after: Memory, runs: Runs, self: int, h: Addr, total: nat, needed: nat)
    requires h in runs
  {
    var cut, granted, hi := Splits(total, needed), GrantedSize(total, needed), h + total;
    && granted >= 0 && granted % 4 == 0 && (total - needed) % 4 == 0
    && h in after && after[h] == Pack(granted, false, PrevFree(runs, h))
    && h + WORD_BYTES in after && after[h + WORD_BYTES] == self
    && (cut ==>
          && h + needed in after && after[h + needed] == Pack(total - needed, true, false)
          && hi - WORD_BYTES in after && after[hi - WORD_BYTES] == total - needed)
    && (hi in runs ==> runs[hi].size % 4 == 0 && hi in after && after[hi] == Pack(runs[hi].size, runs[hi].free, cut))
  }

  lemma GrantSameRun(runs: Runs, runs': Runs, chunks: set<Chunk>, h: Addr, total: nat, needed: nat, x: Addr)
    requires Tiled(runs, chunks) && h in runs && Granted(runs, runs', h, total, needed) && Cuts(runs, h, h + total)
    requires 0 < needed <= total
    requires x in runs' && !(h <= x <= h + total)
    ensures SameRun(runs, runs', x)
  {
    hide RunOk;
    SizesPositive(runs, chunks);
  }

  lemma GrantRunWords(before: Memory, after: Memory, runs: Runs, runs': Runs, chunks: set<Chunk>, self: int, h: Addr,
                      total: nat, needed: nat, x: Addr)
    requires MemOk(before, runs, chunks, self) && Tiled(runs, chunks) && h in runs
    requires Granted(runs, runs', h, total, needed) && Cuts(runs, h, h + total)
    requires 0 < needed <= total
    requires Confined(before, after, runs, h, h + total)
    requires GrantWords(after, runs, self, h, total, needed)
    requires h + total in runs ==> !runs[h + total].free
    requires x in runs' && h <= x <= h + total
    ensures RunWords(after, runs', self, x)
  {
    hide RunOk, Disjoint;
    if x == h {
      assert forall y :: y in runs' && y < h ==> y in runs;
      PrevFreeKept(runs, runs', chunks, h);
    } else if x == h + total {
      assert RunWords(before, runs, self, x);
      SizesLegal(runs, chunks);
      OwnWord(runs, chunks, x, x + WORD_BYTES);
    }
  }

  /** The words `_allocate_from_free_run` and `expand` write keep memory and tiling
      in agreement and touch no other allocated payload. */
  lemma GrantInMemory(before: Memory, after: Memory, runs: Runs, runs': Runs, chunks: set<Chunk>, self: int, h: Addr,
                      total: nat, needed: nat)
    requires MemOk(before, runs, chunks, self) && Tiled(runs, chunks) && h in runs
    requires Granted(runs, runs', h, total, needed) && Cuts(runs, h, h + total) && h + total <= Epilogue(runs[h].home)
    requires 0 < needed <= total
    requires Confined(before, after, runs, h, h + total)
    requires GrantWords(after, runs, self, h, total, needed)
    requires h + total in runs ==> !runs[h + total].free
    requires forall x :: x in runs && h < x < h + total ==> runs[x].free
    ensures MemOk(after, runs', chunks, self)
    ensures PayloadsKept(before, after, runs, h) && ElsewhereKept(before, after, chunks)
  {
    hide ElsewhereKept, Elsewhere, RunOk, MemOk, Confined, Cuts, PayloadsKept, Granted, Disjoint;
    ConfinedKeepsPayloads(before, after, runs, chunks, h, h + total, h);
    ConfinedKeepsElsewhere(before, after, runs, chunks, h, h + total);
    forall x | x in runs' && !(h <= x <= h + total)
      ensures SameRun(runs, runs', x)
    {
      GrantSameRun(runs, runs', chunks, h, total, needed, x);
    }
    forall x | x in runs' && h <= x <= h + total
      ensures RunWords(after, runs', self, x)
    {
      GrantRunWords(before, after, runs, runs', chunks, self, h, total, needed, x);
    }
    MemStep(before, after, runs, runs', chunks, self, h, h + total);
  }

  // The words of a chunk that has just been made one free run.
  ghost predicate ChunkWords(after: Memory, c: Chunk) {
    var size := c.bytes - EPILOGUE_SIZE;
    && size >= 0 && size % 4 == 0
    && (forall a :: WordOf(c, a) ==> a in after)
    && c.begin in after && after[c.begin] == Pack(size, true, false)
    && c.begin + size - WORD_BYTES in after && after[c.begin + size - WORD_BYTES] == size
    && EpilogueWords(after, c)
  }

  // The last byte of a chunk, which is no word address.
  function LastByte(c: Chunk): Addr {
    c.begin + c.bytes - 1
  }

  lemma ChunkEpilogueKept(before: Memory, after: Memory, runs: Runs, chunks: set<Chunk>, c: Chunk, d: Chunk)
    requires Tiled(runs, chunks) && ChunkOk(c) && forall x :: x in chunks ==> Apart(c, x)
    requires Confined(before, after, runs, c.begin, LastByte(c))
    requires d in chunks && EpilogueWords(before, d)
    ensures EpilogueWords(after, d)
  {
    var e := Epilogue(d);
    assert ChunkOk(d) && Apart(c, d);
    NoRunNear(runs, chunks, d, e - NEXT);
    NoRunNear(runs, chunks, d, e - PREV);
    NoRunNear(runs, chunks, d, e + WORD_BYTES - NEXT);
    NoRunNear(runs, chunks, d, e + WORD_BYTES - PREV);
  }

  /** A new chunk keeps memory and tiling in agreement and every payload intact. */
  lemma ChunkInMemory(before: Memory, after: Memory, runs: Runs, chunks: set<Chunk>, self: int, c: Chunk)
    requires MemOk(before, runs, chunks, self) && Heap(runs, chunks)
    requires ChunkOk(c) && forall d :: d in chunks ==> Apart(c, d)
    requires Confined(before, after, runs, c.begin, LastByte(c))
    requires ChunkWords(after, c)
    ensures MemOk(after, WithChunk(runs, c), chunks + {c}, self)
    ensures PayloadsKept(before, after, runs, 0) && ElsewhereKept(before, after, chunks + {c})
  {
    ChunkElsewhere(before, after, runs, chunks, c);
    hide ElsewhereKept, Elsewhere, RunOk, Confined, Cuts, RunWords, EpilogueWords, PayloadsKept;
    var runs' := WithChunk(runs, c);
    ChunkKeeps(runs, chunks, c);
    ChunkCuts(runs, chunks, c);
    ConfinedKeepsPayloads(before, after, runs, chunks, c.begin, LastByte(c), 0);
    forall x | x in runs'
      ensures RunWords(after, runs', self, x)
    {
      if x == c.begin {
        ChunkRunWords(after, runs, self, c);
      } else {
        assert RunWords(before, runs, self, x);
        ChunkOtherRun(runs, chunks, c, x);
        OtherRunKept(before, after, runs, runs', chunks, self, c.begin, LastByte(c), x);
      }
    }
    forall d | d in chunks + {c}
      ensures EpilogueWords(after, d)
    {
      if d in chunks {
        ChunkEpilogueKept(before, after, runs, chunks, c, d);
      }
    }
    ChunkMapped(before, after, runs, chunks, c);
  }

  lemma ChunkElsewhere(before: Memory, after: Memory, runs: Runs, chunks: set<Chunk>, c: Chunk)
    requires Tiled(runs, chunks) && ChunkOk(c) && Confined(before, after, runs, c.begin, LastByte(c))
    ensures ElsewhereKept(before, after, chunks + {c})
  {
    hide Tiled, RunOk;
    forall a | a in before && Elsewhere(chunks + {c}, a)
      ensures a in after && after[a] == before[a]
    {
      assert Elsewhere(chunks, a);
      NotElsewhere(runs, chunks, a - NEXT);
      NotElsewhere(runs, chunks, a - PREV);
      assert c in chunks + {c};
    }
  }

  lemma ChunkMapped(before: Memory, after: Memory, runs: Runs, chunks: set<Chunk>, c: Chunk)
    requires Mapped(before, chunks) && Confined(before, after, runs, c.begin, LastByte(c))
    requires forall a :: WordOf(c, a) ==> a in after
    ensures Mapped(after, chunks + {c})
  {
  }

  lemma ChunkCuts(runs: Runs, chunks: set<Chunk>, c: Chunk)
    requires forall h :: h in runs ==> h + runs[h].size <= c.begin || c.begin + c.bytes <= h
    requires Tiled(runs, chunks) && c.bytes >= MIN_CHUNK
    ensures Cuts(runs, c.begin, LastByte(c))
  {
    hide RunOk;
    SizesPositive(runs, chunks);
  }

  lemma ChunkRunWords(after: Memory, runs: Runs, self: int, c: Chunk)
    requires ChunkOk(c) && ChunkWords(after, c)
    ensures RunWords(after, WithChunk(runs, c), self, c.begin)
  {
  }

  lemma ChunkOtherRun(runs: Runs, chunks: set<Chunk>, c: Chunk, x: Addr)
    requires Heap(runs, chunks) && ChunkOk(c) && forall d :: d in chunks ==> Apart(c, d)
    requires x in runs
    ensures x != c.begin && !(c.begin <= x < LastByte(c)) && x != LastByte(c)
    ensures SameRun(runs, WithChunk(runs, c), x)
  {
    hide Disjoint, Coalesced;
    RunInChunk(runs, chunks, x);
    OwnBefore(runs, chunks, x);
    ChunkAway(runs, chunks, c);
  }

  lemma ChunkAway(runs: Runs, chunks: set<Chunk>, c: Chunk)
    requires Heap(runs, chunks) && ChunkOk(c) && forall d :: d in chunks ==> Apart(c, d)
    ensures c.begin !in runs
    ensures forall x :: x in runs ==> runs[x].size >= MIN_RUN && (x + runs[x].size <= c.begin || c.begin + c.bytes <= x)
  {
    hide Heap;
    ChunkKeeps(runs, chunks, c);
    HeapSizes(runs, chunks);
  }

  lemma HeapSizes(runs: Runs, chunks: set<Chunk>)
    requires Heap(runs, chunks)
    ensures forall x :: x in runs ==> runs[x].size >= MIN_RUN
  {
    hide RunOk, Disjoint, Coalesced;
    SizesLegal(runs, chunks);
  }

  // The run before, if there is one, is a run of the heap.
  lemma OwnBefore(runs: Runs, chunks: set<Chunk>, x: Addr)
    requires Tiled(runs, chunks) && x in runs
    ensures runs[x].back > 0 ==> x - runs[x].back in runs
  {
    assert RunOk(runs, chunks, x);
  }

  // ---------- the flag that is not kept ----------

  /** The prev-free flag of an epilogue tells the truth exactly while the last run of
      its chunk is free. */
  lemma EpilogueFlagExact(mem: Memory, runs: Runs, chunks: set<Chunk>, self: int, h: Addr)
    requires MemOk(mem, runs, chunks, self) && Tiled(runs, chunks)
    requires h in runs && h + runs[h].size == Epilogue(runs[h].home)
    ensures var e := h + runs[h].size;
            e in mem && ((PrevFlag(mem[e]) <==> runs[h].free) <==> runs[h].free)
  {
    assert RunOk(runs, chunks, h);
    assert EpilogueWords(mem, runs[h].home);
  }

  // A chunk of the least size that is allocated whole.
  function FullChunk(): Chunk {
    Chunk(16, 64)
  }

  function FullRuns(): Runs {
    map[16 := Run(48, false, 0, FullChunk())]
  }

  function FullWords(self: int): Memory {
    map[16 := 48, 24 := self, 32 := 0, 40 := 0, 48 := 0, 56 := 0, 64 := 2, 72 := 0]
  }

  /** ... and it can lie: the flag of this well-formed heap says that a free run comes
      before the epilogue, where an allocated one does. */
  lemma EpilogueFlagCanLie(self: int)
    ensures Heap(FullRuns(), {FullChunk()}) && MemOk(FullWords(self), FullRuns(), {FullChunk()}, self)
    ensures PrevFlag(FullWords(self)[64]) && !FullRuns()[16].free && 16 + FullRuns()[16].size == 64
  {
    var runs, c := FullRuns(), FullChunk();
    assert RunOk(runs, {c}, 16);
    assert RunWords(FullWords(self), runs, self, 16);
    assert EpilogueWords(FullWords(self), c);
    forall a | WordOf(c, a)
      ensures a in FullWords(self)
    {
      var k := a / WORD_BYTES;
      assert a == WORD_BYTES * k && 2 <= k < 10;
    }
  }
}
