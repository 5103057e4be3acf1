/** What allocation, release, expansion and growth do to the tiling, and why the
    outcome depends on the set of live runs alone. */
module HeapOps {
  import opened SizeClasses
  import opened Tiling

  /** Tiling without two free neighbours: the state between operations. */
  ghost predicate Heap(runs: Runs, chunks: set<Chunk>) {
    Tiled(runs, chunks) && Coalesced(runs)
  }

  /** Takes `needed` bytes from the free run `h`. */
  function Carve(runs: Runs, h: Addr, needed: nat): Runs
    requires h in runs && needed <= runs[h].size
  {
    var cut := if Splits(runs[h].size, needed) then Split(runs, h, needed) else runs;
    Mark(cut, h, false)
  }

  /** Extends the allocated run `h` into the free run after it. */
  function Stretch(runs: Runs, h: Addr, needed: nat): Runs
    requires h in runs && h + runs[h].size in runs
    requires needed <= runs[h].size + runs[h + runs[h].size].size
  {
    var joined := Join(runs, h);
    if Splits(joined[h].size, needed) then Split(joined, h, needed) else joined
  }

  /** Frees run `h`, joining it with free neighbours on both sides. */
  function Release(runs: Runs, h: Addr): Runs
    requires h in runs
  {
    var freed := Mark(runs, h, true);
    var forward := if NextFree(freed, h) then Join(freed, h) else freed;
    if PrevFree(forward, h) then Join(forward, h - forward[h].back) else forward
  }

  /** A new chunk starts as one free run. */
  function WithChunk(runs: Runs, c: Chunk): Runs
    requires c.bytes >= MIN_CHUNK
  {
    runs[c.begin := Run(c.bytes - EPILOGUE_SIZE, true, 0, c)]
  }

  // ---------- shapes ----------

  function ReleasedAt(runs: Runs, h: Addr): Addr
    requires h in runs
  {
    if PrevFree(runs, h) then h - runs[h].back else h
  }

  function ReleasedSize(runs: Runs, h: Addr): nat
    requires h in runs
  {
    runs[h].size
    + (if NextFree(runs, h) then runs[h + runs[h].size].size else 0)
    + (if PrevFree(runs, h) then runs[h].back else 0)
  }

  // `after` is `runs` with everything from `s` to `s + z` made one free run.
  ghost predicate Merged(runs: Runs, after: Runs, s: Addr, z: nat, free: bool)
    requires s in runs
  {
    && (forall x {:trigger x in after} :: x in after <==> x in runs && !(s < x < s + z))
    && after[s] == Run(z, free, runs[s].back, runs[s].home)
    && (s + z in runs ==> after[s + z] == runs[s + z].(back := z))
    && (forall x {:trigger after[x]} :: x in after && x != s && x != s + z ==> after[x] == runs[x])
  }

  lemma JoinShape(runs: Runs, chunks: set<Chunk>, h: Addr)
    requires Tiled(runs, chunks) && h in runs && h + runs[h].size in runs
    ensures Merged(runs, Join(runs, h), h, runs[h].size + runs[h + runs[h].size].size, runs[h].free)
  {
    var n := h + runs[h].size;
    SizesPositive(runs, chunks);
    hide RunOk;
  }

  lemma MarkShape(runs: Runs, chunks: set<Chunk>, h: Addr, free: bool)
    requires Tiled(runs, chunks) && h in runs
    ensures Merged(runs, Mark(runs, h, free), h, runs[h].size, free)
  {
    hide RunOk;
    SizesPositive(runs, chunks);
    AlwaysLinked(runs, chunks, h);
  }

  lemma MergedTwice(r0: Runs, r1: Runs, r2: Runs, h: Addr, z1: nat, z2: nat, free: bool)
    requires h in r0 && h in r1 && z1 <= z2
    requires Merged(r0, r1, h, z1, free) && Merged(r1, r2, h, z2, free)
    ensures Merged(r0, r2, h, z2, free)
  {
  }

  lemma MergedBack(r0: Runs, r1: Runs, r2: Runs, p: Addr, h: Addr, z1: nat, z2: nat, free: bool)
    requires h in r0 && p in r0 && p in r1 && p < h && p + z2 == h + z1
    requires forall x :: x in r0 ==> !(p < x < h)
    requires Merged(r0, r1, h, z1, free) && Merged(r1, r2, p, z2, free)
    ensures Merged(r0, r2, p, z2, free)
  {
  }

  lemma ForwardShape(runs: Runs, chunks: set<Chunk>, h: Addr)
    requires Tiled(runs, chunks) && h in runs && !runs[h].free
    ensures var freed := Mark(runs, h, true);
            var forward := if NextFree(freed, h) then Join(freed, h) else freed;
            var z := runs[h].size + (if NextFree(runs, h) then runs[h + runs[h].size].size else 0);
            && Tiled(forward, chunks)
            && Merged(runs, forward, h, z, true)
  {
    hide RunOk, Merged;
    var freed := Mark(runs, h, true);
    MarkShape(runs, chunks, h, true);
    MarkTiled(runs, chunks, h, true);
    SizesPositive(runs, chunks);
    if NextFree(freed, h) {
      JoinShape(freed, chunks, h);
      JoinTiled(freed, chunks, h);
      MergedTwice(runs, freed, Join(freed, h), h, runs[h].size, Join(freed, h)[h].size, true);
    }
  }

  lemma PrevKept(runs: Runs, chunks: set<Chunk>, forward: Runs, h: Addr, z: nat)
    requires Tiled(runs, chunks) && h in runs
    requires Merged(runs, forward, h, z, true)
    ensures h in forward && forward[h].back == runs[h].back && forward[h].size == z
    ensures PrevFree(forward, h) <==> PrevFree(runs, h)
    ensures PrevFree(runs, h) ==>
              var p := h - runs[h].back;
              && p in forward && forward[p] == runs[p] && p < h
              && runs[p].home == runs[h].home
              && forall x :: x in runs ==> !(p < x < h)
  {
    hide RunOk;
    SizesPositive(runs, chunks);
    var p := h - runs[h].back;
    if p in runs {
      AlwaysLinked(runs, chunks, p);
    }
  }

  /** Release, described run by run. */
  lemma ReleaseShape(runs: Runs, chunks: set<Chunk>, h: Addr)
    requires Tiled(runs, chunks) && h in runs && !runs[h].free
    ensures ReleasedAt(runs, h) in runs && runs[ReleasedAt(runs, h)].home == runs[h].home
    ensures Merged(runs, Release(runs, h), ReleasedAt(runs, h), ReleasedSize(runs, h), true)
    ensures Tiled(Release(runs, h), chunks)
  {
    hide RunOk, Merged, Tiled, Linked;
    ForwardShape(runs, chunks, h);
    var freed := Mark(runs, h, true);
    var forward := if NextFree(freed, h) then Join(freed, h) else freed;
    var z := runs[h].size + (if NextFree(runs, h) then runs[h + runs[h].size].size else 0);
    PrevKept(runs, chunks, forward, h, z);
    if PrevFree(runs, h) {
      var p := h - runs[h].back;
      JoinShape(forward, chunks, p);
      JoinTiled(forward, chunks, p);
      MergedBack(runs, forward, Join(forward, p), p, h, z, ReleasedSize(runs, h), true);
    }
  }

  /** Carve and Stretch, described run by run: the bytes [h, h + total) become
      one live run and, where that splits, one free run after it. */
  ghost predicate Granted(runs: Runs, after: Runs, h: Addr, total: nat, needed: nat)
    requires h in runs
  {
    var cut := Splits(total, needed);
    && (forall x {:trigger x in after} :: x in after <==>
           (x in runs && !(h < x < h + total)) || (cut && x == h + needed))
    && after[h] == Run(GrantedSize(total, needed), false, runs[h].back, runs[h].home)
    && (cut ==> after[h + needed] == Run(total - needed, true, needed, runs[h].home))
    && (h + total in runs ==> after[h + total] == runs[h + total].(back := if cut then total - needed else total))
    && (forall x {:trigger after[x]} :: x in after && !(h <= x <= h + total) ==> after[x] == runs[x])
  }

  lemma CarveShape(runs: Runs, chunks: set<Chunk>, h: Addr, needed: nat)
    requires Tiled(runs, chunks) && h in runs && runs[h].free && 0 < needed <= runs[h].size
    ensures Granted(runs, Carve(runs, h, needed), h, runs[h].size, needed)
  {
    hide RunOk;
    SizesPositive(runs, chunks);
    AlwaysLinked(runs, chunks, h);
  }

  lemma MergedSize(runs: Runs, joined: Runs, h: Addr, total: nat)
    requires h in runs && total > 0 && Merged(runs, joined, h, total, false)
    ensures h in joined && joined[h].size == total
  {
  }

  // A merged run, cut or not, is a granted one.
  lemma CutShape(runs: Runs, joined: Runs, h: Addr, total: nat, needed: nat)
    requires h in runs && 0 < needed <= total && Merged(runs, joined, h, total, false)
    requires h in joined && joined[h].size == total
    ensures Granted(runs, if Splits(total, needed) then Split(joined, h, needed) else joined, h, total, needed)
  {
  }

  lemma StretchShape(runs: Runs, chunks: set<Chunk>, h: Addr, needed: nat)
    requires Tiled(runs, chunks) && h in runs && !runs[h].free && NextFree(runs, h)
    requires 0 < needed <= runs[h].size + runs[h + runs[h].size].size
    ensures Granted(runs, Stretch(runs, h, needed), h, runs[h].size + runs[h + runs[h].size].size, needed)
  {
    hide RunOk, Linked, Merged, Granted, Join;
    var total := runs[h].size + runs[h + runs[h].size].size;
    JoinShape(runs, chunks, h);
    SizesPositive(runs, chunks);
    MergedSize(runs, Join(runs, h), h, total);
    CutShape(runs, Join(runs, h), h, total, needed);
  }

  // ---------- what every operation keeps ----------

  // The runs that release merges, other than `h` itself, are free, and the
  // neighbours of the merged run are not.
  lemma ReleaseInterior(runs: Runs, chunks: set<Chunk>, h: Addr)
    requires Heap(runs, chunks) && h in runs && !runs[h].free
    ensures var s, z := ReleasedAt(runs, h), ReleasedSize(runs, h);
            && s in runs && s <= h < s + z && !PrevFree(runs, s)
            && (forall x :: x in runs && s <= x < s + z ==> x == h || runs[x].free)
            && (s + z in runs ==> !runs[s + z].free)
  {
    hide RunOk;
    SizesPositive(runs, chunks);
    AlwaysLinked(runs, chunks, h);
    var n := h + runs[h].size;
    if n in runs {
      AlwaysLinked(runs, chunks, n);
      var m := n + runs[n].size;
      assert runs[n].free && m in runs ==> PrevFree(runs, m);
    }
  }

  lemma MergedCoalesced(runs: Runs, after: Runs, s: Addr, z: nat)
    requires Coalesced(runs) && s in runs && !PrevFree(runs, s) && Disjoint(runs)
    requires forall x :: x in runs ==> runs[x].size > 0
    requires s + z in runs ==> !runs[s + z].free
    requires Merged(runs, after, s, z, true)
    ensures Coalesced(after)
  {
    forall x | x in after && after[x].free
      ensures !PrevFree(after, x)
    {
      if x != s {
        assert after[x] == runs[x] && !PrevFree(runs, x);
      }
    }
  }

  /** Release keeps the heap well formed and takes exactly `h` from the live runs. */
  lemma ReleaseKeeps(runs: Runs, chunks: set<Chunk>, h: Addr)
    requires Heap(runs, chunks) && h in runs && !runs[h].free
    ensures Heap(Release(runs, h), chunks)
    ensures Live(Release(runs, h)) == Live(runs) - {h}
  {
    hide RunOk, Merged, Release, ReleasedAt, ReleasedSize;
    ReleaseShape(runs, chunks, h);
    SizesPositive(runs, chunks);
    ReleaseInterior(runs, chunks, h);
    MergedCoalesced(runs, Release(runs, h), ReleasedAt(runs, h), ReleasedSize(runs, h));
    MergedLive(runs, Release(runs, h), ReleasedAt(runs, h), ReleasedSize(runs, h), h);
  }

  lemma MergedLive(runs: Runs, after: Runs, s: Addr, z: nat, h: Addr)
    requires s in runs && Merged(runs, after, s, z, true) && s <= h < s + z
    requires forall x :: x in runs && s <= x < s + z ==> x == h || runs[x].free
    ensures Live(after) == Live(runs) - {h}
  {
    assert forall x :: x in Live(after) <==> x in Live(runs) - {h};
    forall x | x in Live(after)
      ensures after[x].size == runs[x].size
    {
    }
  }

  /** Taking a free run keeps the heap well formed and adds exactly one live run,
      of the granted size. */
  lemma CarveKeeps(runs: Runs, chunks: set<Chunk>, h: Addr, needed: nat)
    requires Heap(runs, chunks) && h in runs && runs[h].free
    requires LegalRunSize(needed) && needed <= runs[h].size
    ensures Heap(Carve(runs, h, needed), chunks)
    ensures Live(Carve(runs, h, needed)) == Live(runs)[h := GrantedSize(runs[h].size, needed)]
  {
    assert RunOk(runs, chunks, h);
    hide RunOk;
    var cut := if Splits(runs[h].size, needed) then Split(runs, h, needed) else runs;
    if Splits(runs[h].size, needed) {
      SplitTiled(runs, chunks, h, needed);
    }
    MarkTiled(cut, chunks, h, false);
    CarveCoalesced(runs, chunks, h, needed);
    CarveLive(runs, chunks, h, needed);
  }

  lemma CarveCoalesced(runs: Runs, chunks: set<Chunk>, h: Addr, needed: nat)
    requires Heap(runs, chunks) && h in runs && runs[h].free && 0 < needed <= runs[h].size
    ensures Coalesced(Carve(runs, h, needed))
  {
    hide RunOk;
    var after := Carve(runs, h, needed);
    AlwaysLinked(runs, chunks, h);
    SizesPositive(runs, chunks);
    var n := h + runs[h].size;
    assert n in runs ==> PrevFree(runs, n);
    forall x | x in after && after[x].free
      ensures !PrevFree(after, x)
    {
      if x in runs && x != h {
        assert x != n;
      }
    }
  }

  lemma CarveLive(runs: Runs, chunks: set<Chunk>, h: Addr, needed: nat)
    requires Tiled(runs, chunks) && h in runs && runs[h].free && 0 < needed <= runs[h].size
    ensures Live(Carve(runs, h, needed)) == Live(runs)[h := GrantedSize(runs[h].size, needed)]
  {
    hide RunOk;
    SizesPositive(runs, chunks);
    var after := Carve(runs, h, needed);
    assert Splits(runs[h].size, needed) ==> h + needed !in runs;
  }

  /** Extending a live run keeps the heap well formed, moves no run and changes
      the size of that one run only. */
  lemma StretchKeeps(runs: Runs, chunks: set<Chunk>, h: Addr, needed: nat)
    requires Heap(runs, chunks) && h in runs && !runs[h].free && NextFree(runs, h)
    requires LegalRunSize(needed) && needed <= runs[h].size + runs[h + runs[h].size].size
    ensures Heap(Stretch(runs, h, needed), chunks)
    ensures Live(Stretch(runs, h, needed))
         == Live(runs)[h := GrantedSize(runs[h].size + runs[h + runs[h].size].size, needed)]
  {
    hide RunOk, Coalesced, Live, Stretch;
    StretchTiled(runs, chunks, h, needed);
    StretchCoalesced(runs, chunks, h, needed);
    StretchLive(runs, chunks, h, needed);
  }

  lemma StretchTiled(runs: Runs, chunks: set<Chunk>, h: Addr, needed: nat)
    requires Tiled(runs, chunks) && h in runs && !runs[h].free && NextFree(runs, h)
    requires LegalRunSize(needed) && needed <= runs[h].size + runs[h + runs[h].size].size
    ensures Tiled(Stretch(runs, h, needed), chunks)
  {
    var z := runs[h].size + runs[h + runs[h].size].size;
    assert LegalRunSize(z) by {
      assert RunOk(runs, chunks, h) && RunOk(runs, chunks, h + runs[h].size);
      LegalSum(runs[h].size, runs[h + runs[h].size].size);
    }
    hide RunOk, Tiled, LegalRunSize;
    JoinTiled(runs, chunks, h);
    JoinShape(runs, chunks, h);
    WasteBound(z, needed);
    if Splits(z, needed) {
      SplitTiled(Join(runs, h), chunks, h, needed);
    }
  }

  lemma StretchCoalesced(runs: Runs, chunks: set<Chunk>, h: Addr, needed: nat)
    requires Heap(runs, chunks) && h in runs && !runs[h].free && NextFree(runs, h)
    requires 0 < needed <= runs[h].size + runs[h + runs[h].size].size
    ensures Coalesced(Stretch(runs, h, needed))
  {
    hide RunOk;
    var n := h + runs[h].size;
    AlwaysLinked(runs, chunks, h);
    AlwaysLinked(runs, chunks, n);
    SizesPositive(runs, chunks);
    JoinShape(runs, chunks, h);
    var z := runs[h].size + runs[n].size;
    assert h + z in runs ==> PrevFree(runs, h + z);
    JoinCoalesced(runs, Join(runs, h), h, z);
    JoinTiled(runs, chunks, h);
    if Splits(z, needed) {
      SplitCoalesced(Join(runs, h), chunks, h, needed);
    }
  }

  lemma JoinCoalesced(runs: Runs, after: Runs, h: Addr, z: nat)
    requires Coalesced(runs) && h in runs && Disjoint(runs)
    requires forall x :: x in runs ==> runs[x].size > 0
    requires h + z in runs ==> !runs[h + z].free
    requires Merged(runs, after, h, z, false)
    ensures Coalesced(after)
    ensures h + z in after ==> !after[h + z].free
  {
    hide Coalesced, Disjoint;
    assert h + z in after ==> !after[h + z].free;
    forall x | x in after && after[x].free
      ensures !PrevFree(after, x)
    {
      assert x != h && after[x] == runs[x];
      CoalescedAt(runs, x);
      var p := x - after[x].back;
      assert p in after && after[p].free ==> p != h && p != h + z && after[p] == runs[p];
    }
    AllCoalesced(after);
  }

  lemma CoalescedAt(runs: Runs, x: Addr)
    requires Coalesced(runs) && x in runs && runs[x].free
    ensures !PrevFree(runs, x)
  {
  }

  lemma AllCoalesced(runs: Runs)
    requires forall x :: x in runs && runs[x].free ==> !PrevFree(runs, x)
    ensures Coalesced(runs)
  {
  }

  lemma SplitCoalesced(runs: Runs, chunks: set<Chunk>, h: Addr, k: nat)
    requires Heap(runs, chunks) && h in runs && !runs[h].free && 0 < k < runs[h].size
    requires h + runs[h].size in runs ==> !runs[h + runs[h].size].free
    ensures Coalesced(Split(runs, h, k))
  {
    hide RunOk;
    SizesPositive(runs, chunks);
    AlwaysLinked(runs, chunks, h);
    var after := Split(runs, h, k);
    forall x | x in after && after[x].free
      ensures !PrevFree(after, x)
    {
      if x != h + k {
        assert x != h && after[x] == runs[x] && !PrevFree(runs, x);
      }
    }
  }

  lemma StretchLive(runs: Runs, chunks: set<Chunk>, h: Addr, needed: nat)
    requires Heap(runs, chunks) && h in runs && !runs[h].free && NextFree(runs, h)
    requires 0 < needed <= runs[h].size + runs[h + runs[h].size].size
    ensures Live(Stretch(runs, h, needed))
         == Live(runs)[h := GrantedSize(runs[h].size + runs[h + runs[h].size].size, needed)]
  {
    hide RunOk;
    SizesPositive(runs, chunks);
    var n := h + runs[h].size;
    var z := runs[h].size + runs[n].size;
    JoinTiled(runs, chunks, h);
    JoinLive(runs, h);
    if Splits(z, needed) {
      SizesPositive(Join(runs, h), chunks);
      SplitLive(Join(runs, h), h, needed);
    }
  }

  lemma JoinLive(runs: Runs, h: Addr)
    requires h in runs && !runs[h].free && NextFree(runs, h) && runs[h].size > 0
    ensures Live(Join(runs, h)) == Live(runs)[h := runs[h].size + runs[h + runs[h].size].size]
  {
  }

  lemma SplitLive(runs: Runs, h: Addr, k: nat)
    requires Disjoint(runs) && h in runs && !runs[h].free && 0 < k < runs[h].size
    requires forall x :: x in runs ==> runs[x].size > 0
    ensures Live(Split(runs, h, k)) == Live(runs)[h := k]
  {
    assert h + k !in runs;
  }

  /** A new chunk, apart from the others, adds one free run and no live one. */
  lemma ChunkKeeps(runs: Runs, chunks: set<Chunk>, c: Chunk)
    requires Heap(runs, chunks) && ChunkOk(c) && forall d :: d in chunks ==> Apart(c, d)
    ensures c.begin !in runs
    ensures Heap(WithChunk(runs, c), chunks + {c})
    ensures Live(WithChunk(runs, c)) == Live(runs)
    ensures forall h :: h in runs ==> h + runs[h].size <= c.begin || c.begin + c.bytes <= h
  {
    hide RunOk;
    forall x | x in runs
      ensures RunAway(runs, c, x)
    {
      assert RunOk(runs, chunks, x);
      RunIsAway(runs, chunks, c, x);
    }
    var after := WithChunk(runs, c);
    forall x | x in after
      ensures RunOk(after, chunks + {c}, x)
    {
      assert x in runs ==> RunOk(runs, chunks, x);
      ChunkRunOk(runs, chunks, c, x);
    }
    ChunkCoalesced(runs, c);
  }

  ghost predicate RunAway(runs: Runs, c: Chunk, x: Addr)
    requires x in runs
  {
    && (x + runs[x].size <= c.begin - EPILOGUE_SIZE || c.begin + c.bytes <= x)
    && runs[x].size > 0
  }

  lemma RunIsAway(runs: Runs, chunks: set<Chunk>, c: Chunk, x: Addr)
    requires ChunksOk(chunks) && ChunkOk(c) && forall d :: d in chunks ==> Apart(c, d)
    requires x in runs && RunOk(runs, chunks, x)
    ensures RunAway(runs, c, x)
  {
  }

  lemma ChunkRunOk(runs: Runs, chunks: set<Chunk>, c: Chunk, x: Addr)
    requires ChunkOk(c) && forall y :: y in runs ==> RunAway(runs, c, y)
    requires x in WithChunk(runs, c)
    requires x in runs ==> RunOk(runs, chunks, x)
    ensures RunOk(WithChunk(runs, c), chunks + {c}, x)
  {
    assert c.begin !in runs;
    if x in runs {
      assert RunAway(runs, c, x);
    }
  }

  lemma ChunkCoalesced(runs: Runs, c: Chunk)
    requires Coalesced(runs) && c.bytes >= MIN_CHUNK && forall y :: y in runs ==> RunAway(runs, c, y)
    ensures Coalesced(WithChunk(runs, c))
  {
    var after := WithChunk(runs, c);
    assert c.begin !in runs;
    forall x | x in after && after[x].free
      ensures !PrevFree(after, x)
    {
      if x != c.begin {
        assert RunAway(runs, c, x) && !PrevFree(runs, x);
      }
    }
  }
}
