/** The tiling of a well-formed heap is a function of its chunks and its live
    runs: free runs are exactly the maximal gaps. Hence the order in which runs
    are freed does not matter, and a gap is usable whole. */
module CanonicalForm {
  import opened SizeClasses
  import opened Tiling
  import opened HeapOps

  // Two heaps with the same chunks and the same live runs agree at `h`.
  lemma {:induction false} AgreeAt(r1: Runs, r2: Runs, chunks: set<Chunk>, h: Addr)
    requires Heap(r1, chunks) && Heap(r2, chunks) && Live(r1) == Live(r2)
    requires h in r1
    ensures h in r2 && r1[h].home == r2[h].home && r1[h].back == r2[h].back && r1[h].free == r2[h].free
    decreases h
  {
    RunPlaced(r1, chunks, h);
    if r1[h].back == 0 {
      RunPlaced(r2, chunks, h);
    }
    hide RunOk;
    if r1[h].back > 0 {
      var p := h - r1[h].back;
      AgreeAt(r1, r2, chunks, p);
      AgreeSize(r1, r2, chunks, p);
      AlwaysLinked(r2, chunks, p);
    }
    assert h in Live(r1) <==> h in Live(r2);
  }

  ghost predicate RunPlace(runs: Runs, chunks: set<Chunk>, h: Addr)
    requires h in runs
  {
    var r := runs[h];
    && r.home in chunks
    && (r.back == 0 <==> h == r.home.begin)
    && (r.back > 0 ==>
          && h - r.back in runs && h - r.back > 0 && runs[h - r.back].size == r.back
          && runs[h - r.back].home == r.home)
    && 0 < h < Epilogue(r.home)
  }

  lemma RunPlaced(runs: Runs, chunks: set<Chunk>, h: Addr)
    requires Tiled(runs, chunks) && h in runs
    ensures RunPlace(runs, chunks, h)
  {
    assert RunOk(runs, chunks, h) && ChunkOk(runs[h].home);
    if runs[h].back > 0 {
      assert RunOk(runs, chunks, h - runs[h].back);
    }
  }

  // ... and where they agree on that a run starts, they agree on its size.
  lemma AgreeSize(r1: Runs, r2: Runs, chunks: set<Chunk>, h: Addr)
    requires Heap(r1, chunks) && Heap(r2, chunks) && Live(r1) == Live(r2)
    requires h in r1 && h in r2 && r1[h].home == r2[h].home
    ensures r1[h].size == r2[h].size
  {
    hide RunOk;
    assert h in Live(r1) <==> h in Live(r2);
    if r1[h].free {
      SizeNotLess(r1, r2, chunks, h);
      SizeNotLess(r2, r1, chunks, h);
    } else {
      assert Live(r1)[h] == Live(r2)[h];
    }
  }

  lemma SizeNotLess(r1: Runs, r2: Runs, chunks: set<Chunk>, h: Addr)
    requires Heap(r1, chunks) && Heap(r2, chunks) && Live(r1) == Live(r2)
    requires h in r1 && h in r2 && r1[h].home == r2[h].home && r1[h].free
    ensures r2[h].size <= r1[h].size
  {
    assert h + r2[h].size <= Epilogue(r2[h].home) && r1[h].size > 0 by {
      assert RunOk(r1, chunks, h) && RunOk(r2, chunks, h);
    }
    hide RunOk;
    AlwaysLinked(r1, chunks, h);
    var n := h + r1[h].size;
    assert n in r1 ==> PrevFree(r1, n);
    assert n in Live(r1) ==> n in Live(r2);
  }

  /** Canonical form: the live runs and the chunks determine every run. */
  lemma LiveDeterminesRuns(r1: Runs, r2: Runs, chunks: set<Chunk>)
    requires Heap(r1, chunks) && Heap(r2, chunks) && Live(r1) == Live(r2)
    ensures r1 == r2
  {
    hide RunOk, Disjoint, Coalesced;
    forall h | h in r1
      ensures h in r2 && r1[h] == r2[h]
    {
      AgreeAt(r1, r2, chunks, h);
      AgreeSize(r1, r2, chunks, h);
    }
    forall h | h in r2
      ensures h in r1
    {
      AgreeAt(r2, r1, chunks, h);
    }
  }

  /** Frees the runs of a list one after the other. */
  function ReleaseAll(runs: Runs, hs: seq<Addr>): Runs
    decreases |hs|
  {
    if hs == [] || hs[0] !in runs then runs else ReleaseAll(Release(runs, hs[0]), hs[1..])
  }

  ghost predicate Distinct<T>(s: seq<T>) {
    forall i, j :: 0 <= i < j < |s| ==> s[i] != s[j]
  }

  ghost function Elements(s: seq<Addr>): (r: set<Addr>)
    ensures forall x: Addr :: x in r <==> x in s
  {
    set x | x in s
  }

  ghost predicate AllLive(runs: Runs, hs: seq<Addr>) {
    forall h :: h in hs ==> h in runs && !runs[h].free
  }

  lemma LiveAfterRelease(runs: Runs, chunks: set<Chunk>, h: Addr, hs: seq<Addr>)
    requires Heap(runs, chunks) && h in runs && !runs[h].free
    requires AllLive(runs, hs) && h !in hs
    ensures AllLive(Release(runs, h), hs)
  {
    ReleaseKeeps(runs, chunks, h);
    forall x | x in hs
      ensures x in Release(runs, h) && !Release(runs, h)[x].free
    {
      assert x in Live(runs) - {h};
      assert x in Live(Release(runs, h));
    }
  }

  /** Freeing a list of distinct live runs removes exactly those. */
  lemma {:induction false} ReleaseAllKeeps(runs: Runs, chunks: set<Chunk>, hs: seq<Addr>)
    requires Heap(runs, chunks) && Distinct(hs) && AllLive(runs, hs)
    ensures Heap(ReleaseAll(runs, hs), chunks)
    ensures Live(ReleaseAll(runs, hs)) == Live(runs) - Elements(hs)
    decreases |hs|
  {
    if hs == [] {
    } else {
      hide Tiled, Coalesced, Release;
      ReleaseKeeps(runs, chunks, hs[0]);
      LiveAfterRelease(runs, chunks, hs[0], hs[1..]);
      ReleaseAllKeeps(Release(runs, hs[0]), chunks, hs[1..]);
      assert Elements(hs) == {hs[0]} + Elements(hs[1..]);
      assert Live(runs) - Elements(hs) == (Live(runs) - {hs[0]}) - Elements(hs[1..]);
    }
  }

  lemma {:induction false} ReleaseAllAppend(runs: Runs, chunks: set<Chunk>, hs: seq<Addr>, h: Addr)
    requires Heap(runs, chunks) && Distinct(hs + [h]) && AllLive(runs, hs + [h])
    ensures h in ReleaseAll(runs, hs) && !ReleaseAll(runs, hs)[h].free
    ensures ReleaseAll(runs, hs + [h]) == Release(ReleaseAll(runs, hs), h)
    decreases |hs|
  {
    hide Tiled, Coalesced, Release;
    var all := hs + [h];
    assert h in all && all[|hs|] == h;
    if hs == [] {
      assert all[1..] == [];
    } else {
      assert all[0] == hs[0] && all[1..] == hs[1..] + [h];
      assert hs[0] != h && hs[0] in all;
      ReleaseKeeps(runs, chunks, hs[0]);
      assert forall x :: x in all[1..] ==> x in all && x != hs[0];
      LiveAfterRelease(runs, chunks, hs[0], all[1..]);
      ReleaseAllAppend(Release(runs, hs[0]), chunks, hs[1..], h);
    }
  }

  /** Any two orders of freeing the same runs give the same heap. */
  lemma ReleaseOrderIrrelevant(runs: Runs, chunks: set<Chunk>, s: seq<Addr>, t: seq<Addr>)
    requires Heap(runs, chunks) && Distinct(s) && Distinct(t) && AllLive(runs, s)
    requires forall h :: h in s <==> h in t
    ensures ReleaseAll(runs, s) == ReleaseAll(runs, t)
  {
    hide Tiled, Coalesced, ReleaseAll;
    ReleaseAllKeeps(runs, chunks, s);
    ReleaseAllKeeps(runs, chunks, t);
    assert forall h: Addr :: h in Elements(s) <==> h in Elements(t);
    LiveDeterminesRuns(ReleaseAll(runs, s), ReleaseAll(runs, t), chunks);
  }

  /** With nothing live, every chunk is one free run up to its epilogue. */
  lemma EmptyHeapIsOneRunPerChunk(runs: Runs, chunks: set<Chunk>)
    requires Heap(runs, chunks) && Live(runs) == map[]
    ensures forall c :: c in chunks ==> c.begin in runs && runs[c.begin] == Run(c.bytes - EPILOGUE_SIZE, true, 0, c)
    ensures forall h :: h in runs ==> runs[h].home in chunks && h == runs[h].home.begin
  {
    forall h | h in runs
      ensures runs[h].home in chunks && h == runs[h].home.begin
    {
      assert h !in Live(runs) && h - runs[h].back !in Live(runs);
      assert RunOk(runs, chunks, h) && !PrevFree(runs, h);
    }
    forall c | c in chunks
      ensures c.begin in runs && runs[c.begin] == Run(c.bytes - EPILOGUE_SIZE, true, 0, c)
    {
      var n := c.begin + runs[c.begin].size;
      assert c.begin !in Live(runs);
      assert RunOk(runs, chunks, c.begin);
      AlwaysLinked(runs, chunks, c.begin);
    }
  }

  /** Any release order that frees everything restores the pristine chunks. */
  lemma ReleasingAllRestoresChunks(runs: Runs, chunks: set<Chunk>, hs: seq<Addr>)
    requires Heap(runs, chunks) && Distinct(hs) && AllLive(runs, hs)
    requires forall h :: h in Live(runs) ==> h in hs
    ensures var after := ReleaseAll(runs, hs);
            && (forall c :: c in chunks ==> c.begin in after && after[c.begin] == Run(c.bytes - EPILOGUE_SIZE, true, 0, c))
            && (forall h :: h in after ==> after[h].home in chunks && h == after[h].home.begin)
  {
    hide Tiled, Coalesced, ReleaseAll;
    ReleaseAllKeeps(runs, chunks, hs);
    var after := ReleaseAll(runs, hs);
    assert forall h: Addr :: h in Live(runs) ==> h in Elements(hs);
    assert forall h: Addr :: h !in Live(after);
    EmptyHeapIsOneRunPerChunk(after, chunks);
  }

  /** The run of chunk `c` that contains address `a`, found by walking from `h`. */
  ghost function RunAt(runs: Runs, chunks: set<Chunk>, h: Addr, a: Addr): (r: Addr)
    requires Tiled(runs, chunks) && h in runs && h <= a < Epilogue(runs[h].home)
    ensures r in runs && r <= a < r + runs[r].size && runs[r].home == runs[h].home
    decreases a - h
  {
    AlwaysLinked(runs, chunks, h);
    SizesPositive(runs, chunks);
    if a < h + runs[h].size then h else RunAt(runs, chunks, h + runs[h].size, a)
  }

  /** [a, b) lies in the usable part of chunk `c` and meets no live run. */
  ghost predicate Gap(runs: Runs, c: Chunk, a: Addr, b: Addr) {
    && c.begin <= a < b <= Epilogue(c)
    && forall h :: h in Live(runs) ==> h + Live(runs)[h] <= a || b <= h
  }

  // Every gap lies within one free run ...
  lemma GapInFreeRun(runs: Runs, chunks: set<Chunk>, c: Chunk, a: Addr, b: Addr)
    requires Heap(runs, chunks) && c in chunks && Gap(runs, c, a, b)
    ensures exists h :: h in runs && runs[h].free && runs[h].home == c && h <= a && b <= h + runs[h].size
  {
    hide RunOk;
    var h := RunAt(runs, chunks, c.begin, a);
    assert h !in Live(runs);
    AlwaysLinked(runs, chunks, h);
    SizesPositive(runs, chunks);
    var n := h + runs[h].size;
    assert n in runs ==> PrevFree(runs, n) && n in Live(runs);
  }

  // ... and what lies within a free run is a gap.
  lemma FreeRunIsGap(runs: Runs, chunks: set<Chunk>, c: Chunk, a: Addr, b: Addr, h: Addr)
    requires Heap(runs, chunks) && h in runs && runs[h].free && runs[h].home == c && h <= a < b <= h + runs[h].size
    ensures Gap(runs, c, a, b)
  {
    assert RunOk(runs, chunks, h);
    hide RunOk, Coalesced;
    assert forall x :: x in runs && x != h ==> x + runs[x].size <= h || h + runs[h].size <= x;
  }

  /** Every gap lies within one free run; and every free run is itself a gap. So
      the free runs are the maximal gaps. */
  lemma GapsAreFreeRuns(runs: Runs, chunks: set<Chunk>, c: Chunk, a: Addr, b: Addr)
    requires Heap(runs, chunks) && c in chunks
    ensures Gap(runs, c, a, b) <==>
              a < b && exists h :: h in runs && runs[h].free && runs[h].home == c && h <= a && b <= h + runs[h].size
  {
    hide Tiled, Coalesced, Live;
    if Gap(runs, c, a, b) {
      GapInFreeRun(runs, chunks, c, a, b);
    }
    if a < b && exists h :: h in runs && runs[h].free && runs[h].home == c && h <= a && b <= h + runs[h].size {
      var h :| h in runs && runs[h].free && runs[h].home == c && h <= a && b <= h + runs[h].size;
      FreeRunIsGap(runs, chunks, c, a, b, h);
    }
  }
}
