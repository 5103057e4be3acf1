/** The abstract heap of one runner: the runs that tile its chunks, and the
    three elementary changes (splitting a run, joining it with the next one,
    marking it free or allocated) from which every operation is made. */
module Tiling {
  import opened Words
  import opened SizeClasses

  type Addr = int

  datatype Chunk = Chunk(begin: Addr, bytes: nat)

  /** Address of the zero-size header that ends a chunk. */
  function Epilogue(c: Chunk): Addr {
    c.begin + c.bytes - EPILOGUE_SIZE
  }

  /** A run, stored under the address of its header. `back` is the size of the
      run before it in the same chunk, 0 for the first one. */
  datatype Run = Run(size: nat, free: bool, back: nat, home: Chunk)

  type Runs = map<Addr, Run>

  ghost predicate ChunkOk(c: Chunk) {
    && c.begin > 0 && c.begin % RUN_ALIGNMENT == 0
    && c.bytes >= MIN_CHUNK && c.bytes % RUN_ALIGNMENT == 0
    && IsWord(c.begin + c.bytes)
  }

  ghost predicate Apart(c: Chunk, d: Chunk) {
    c.begin + c.bytes <= d.begin || d.begin + d.bytes <= c.begin
  }

  ghost predicate ChunksOk(chunks: set<Chunk>) {
    && (forall c :: c in chunks ==> ChunkOk(c))
    && (forall c, d :: c in chunks && d in chunks && c != d ==> Apart(c, d))
  }

  /** The run before `h`, in the same chunk, is free. */
  predicate PrevFree(runs: Runs, h: Addr)
    requires h in runs
  {
    var p := h - runs[h].back;
    runs[h].back > 0 && p in runs && runs[p].size == runs[h].back && runs[p].free
  }

  /** The run after `h` exists and is free. */
  predicate NextFree(runs: Runs, h: Addr)
    requires h in runs
  {
    var n := h + runs[h].size;
    n in runs && runs[n].free
  }

  ghost predicate RunOk(runs: Runs, chunks: set<Chunk>, h: Addr)
    requires h in runs
  {
    var r := runs[h];
    && LegalRunSize(r.size)
    && h % RUN_ALIGNMENT == 0
    && r.home in chunks
    && r.home.begin <= h && h + r.size <= Epilogue(r.home)
    && (r.back == 0 <==> h == r.home.begin)
    && (r.back > 0 ==>
          var p := h - r.back;
          p in runs && runs[p].size == r.back && runs[p].home == r.home)
    && (h + r.size < Epilogue(r.home) ==>
          var n := h + r.size;
          n in runs && runs[n].back == r.size && runs[n].home == r.home)
  }

  ghost predicate Disjoint(runs: Runs) {
    forall a, b :: a in runs && b in runs && a < b ==> a + runs[a].size <= b
  }

  /** The runs cover every chunk from its first byte to its epilogue, each run
      starting where the one before it ends, and never straddle a chunk. */
  ghost predicate Tiled(runs: Runs, chunks: set<Chunk>) {
    && ChunksOk(chunks)
    && (forall h {:trigger RunOk(runs, chunks, h)} :: h in runs ==> RunOk(runs, chunks, h))
    && (forall c :: c in chunks ==> c.begin in runs && runs[c.begin].home == c)
    && Disjoint(runs)
  }

  /** No two neighbours are both free. */
  ghost predicate Coalesced(runs: Runs) {
    forall h :: h in runs && runs[h].free ==> !PrevFree(runs, h)
  }

  /** The allocated runs and their sizes. */
  function Live(runs: Runs): map<Addr, nat> {
    map h | h in runs && !runs[h].free :: runs[h].size
  }

  /** The free runs and their sizes. */
  function Free(runs: Runs): map<Addr, nat> {
    map h | h in runs && runs[h].free :: runs[h].size
  }

  // ---------- elementary changes ----------

  function WithBack(runs: Runs, h: Addr, back: nat): Runs {
    if h in runs then runs[h := runs[h].(back := back)] else runs
  }

  function Mark(runs: Runs, h: Addr, free: bool): Runs
    requires h in runs
  {
    runs[h := runs[h].(free := free)]
  }

  /** Cuts run `h` after `k` bytes; the remainder becomes a free run. */
  function Split(runs: Runs, h: Addr, k: nat): Runs
    requires h in runs && k < runs[h].size
  {
    var r := runs[h];
    var rem := Run(r.size - k, true, k, r.home);
    WithBack(runs, h + r.size, r.size - k)[h := r.(size := k)][h + k := rem]
  }

  /** Absorbs the run after `h` into run `h`. */
  function Join(runs: Runs, h: Addr): Runs
    requires h in runs && h + runs[h].size in runs
  {
    var r := runs[h];
    var n := h + r.size;
    var size := r.size + runs[n].size;
    WithBack(runs - {n}, h + size, size)[h := r.(size := size)]
  }

  /** What lies at the end of a run: the next run of the same chunk, or the
      epilogue of that chunk; never a run of a chunk that happens to follow. */
  ghost predicate Linked(runs: Runs, h: Addr)
    requires h in runs
  {
    var n := h + runs[h].size;
    if n in runs then
      n < Epilogue(runs[h].home) && runs[n].back == runs[h].size && runs[n].home == runs[h].home
    else
      n == Epilogue(runs[h].home)
  }

  lemma AlwaysLinked(runs: Runs, chunks: set<Chunk>, h: Addr)
    requires Tiled(runs, chunks) && h in runs
    ensures Linked(runs, h)
  {
    var n := h + runs[h].size;
    assert RunOk(runs, chunks, h);
    if n in runs {
      assert RunOk(runs, chunks, n);
      var c, d := runs[h].home, runs[n].home;
      assert c != d ==> Apart(c, d);
    }
  }

  lemma NotFirst(runs: Runs, chunks: set<Chunk>, h: Addr)
    requires Tiled(runs, chunks) && h in runs && h + runs[h].size in runs
    ensures forall c :: c in chunks ==> c.begin != h + runs[h].size
  {
    AlwaysLinked(runs, chunks, h);
    assert RunOk(runs, chunks, h) && RunOk(runs, chunks, h + runs[h].size);
  }

  lemma MarkTiled(runs: Runs, chunks: set<Chunk>, h: Addr, free: bool)
    requires Tiled(runs, chunks) && h in runs
    ensures Tiled(Mark(runs, h, free), chunks)
  {
    var after := Mark(runs, h, free);
    hide RunOk, Disjoint, ChunksOk;
    MarkDisjoint(runs, h, free);
    forall x | x in after
      ensures RunOk(after, chunks, x)
    {
      assert RunOk(runs, chunks, x);
      MarkRunOk(runs, chunks, h, free, x);
    }
  }

  lemma MarkDisjoint(runs: Runs, h: Addr, free: bool)
    requires Disjoint(runs) && h in runs
    ensures Disjoint(Mark(runs, h, free))
  {
  }

  lemma MarkRunOk(runs: Runs, chunks: set<Chunk>, h: Addr, free: bool, x: Addr)
    requires h in runs && x in runs && RunOk(runs, chunks, x)
    ensures RunOk(Mark(runs, h, free), chunks, x)
  {
    hide LegalRunSize;
  }

  lemma SplitRunOk(runs: Runs, chunks: set<Chunk>, h: Addr, k: nat, x: Addr)
    requires h in runs && RunOk(runs, chunks, h) && Linked(runs, h) && h + k !in runs
    requires LegalRunSize(k) && LegalRunSize(runs[h].size - k)
    requires x in runs && x != h && RunOk(runs, chunks, x)
    ensures RunOk(Split(runs, h, k), chunks, x)
  {
  }

  lemma SplitRunsOk(runs: Runs, chunks: set<Chunk>, h: Addr, k: nat)
    requires h in runs && RunOk(runs, chunks, h) && Linked(runs, h) && h + k !in runs
    requires LegalRunSize(k) && LegalRunSize(runs[h].size - k)
    ensures RunOk(Split(runs, h, k), chunks, h)
    ensures RunOk(Split(runs, h, k), chunks, h + k)
  {
  }

  lemma SplitDisjoint(runs: Runs, h: Addr, k: nat)
    requires Disjoint(runs) && h in runs && 0 < k < runs[h].size
    requires forall x :: x in runs ==> runs[x].size > 0
    ensures h + k !in runs
    ensures Disjoint(Split(runs, h, k))
  {
  }

  lemma SizesPositive(runs: Runs, chunks: set<Chunk>)
    requires Tiled(runs, chunks)
    ensures forall x :: x in runs ==> runs[x].size > 0
  {
    forall x | x in runs
      ensures runs[x].size > 0
    {
      assert RunOk(runs, chunks, x);
    }
  }

  lemma SplitTiled(runs: Runs, chunks: set<Chunk>, h: Addr, k: nat)
    requires Tiled(runs, chunks) && h in runs
    requires LegalRunSize(k) && LegalRunSize(runs[h].size - k)
    ensures Tiled(Split(runs, h, k), chunks)
  {
    hide RunOk, Disjoint, Linked;
    AlwaysLinked(runs, chunks, h);
    SizesPositive(runs, chunks);
    SplitDisjoint(runs, h, k);
    assert RunOk(runs, chunks, h);
    SplitRunsOk(runs, chunks, h, k);
    forall x | x in Split(runs, h, k)
      ensures RunOk(Split(runs, h, k), chunks, x)
    {
      if x != h && x != h + k {
        assert RunOk(runs, chunks, x);
        SplitRunOk(runs, chunks, h, k, x);
      }
    }
  }

  lemma JoinRunOk(runs: Runs, chunks: set<Chunk>, h: Addr, x: Addr)
    requires h in runs && RunOk(runs, chunks, h) && Linked(runs, h)
    requires h + runs[h].size in runs && RunOk(runs, chunks, h + runs[h].size) && Linked(runs, h + runs[h].size)
    requires x in Join(runs, h) && RunOk(runs, chunks, x) && Linked(runs, x)
    ensures RunOk(Join(runs, h), chunks, x)
  {
  }

  lemma JoinDisjoint(runs: Runs, h: Addr)
    requires Disjoint(runs) && h in runs && h + runs[h].size in runs && runs[h].size > 0
    ensures Disjoint(Join(runs, h))
  {
  }

  lemma JoinTiled(runs: Runs, chunks: set<Chunk>, h: Addr)
    requires Tiled(runs, chunks) && h in runs && h + runs[h].size in runs
    ensures Tiled(Join(runs, h), chunks)
  {
    hide RunOk, Disjoint, Linked;
    var n := h + runs[h].size;
    AlwaysLinked(runs, chunks, h);
    AlwaysLinked(runs, chunks, n);
    SizesPositive(runs, chunks);
    JoinDisjoint(runs, h);
    NotFirst(runs, chunks, h);
    assert RunOk(runs, chunks, h) && RunOk(runs, chunks, n);
    forall x | x in Join(runs, h)
      ensures RunOk(Join(runs, h), chunks, x)
    {
      AlwaysLinked(runs, chunks, x);
      assert RunOk(runs, chunks, x);
      JoinRunOk(runs, chunks, h, x);
    }
  }
}
