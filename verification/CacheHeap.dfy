/** A thread's cache over the thread's own runner, on one memory: what allocation and
    deallocation through the cache do to both. The entries are runs of that runner, or
    runs of other runners, whose chunks are `abroad`; `hand` are runs that the thread
    uses meanwhile. */
module CacheHeap {
  import opened Words
  import opened SizeClasses
  import opened Tiling
  import opened HeapOps
  import opened CanonicalForm
  import opened FreeLists
  import opened HeapMemory
  import HeapSteps
  import opened RunnerState
  import opened Runner
  import C = RunCache

  // ---------- where cached runs are ----------

  /** The payload belongs to an allocated run of the runner that is not parked with it. */
  predicate OwnRun(runs: Runs, parked: seq<Addr>, p: Addr) {
    p - HEADER_SIZE in runs && !runs[p - HEADER_SIZE].free && p - HEADER_SIZE !in parked
  }

  /** The payload belongs to a run in a chunk of another runner. */
  ghost predicate Abroad(abroad: set<Chunk>, p: Addr) {
    exists d :: d in abroad && d.begin <= p - HEADER_SIZE && p - HEADER_SIZE + MIN_RUN <= d.begin + d.bytes
  }

  /** The owner word of the run tells which. */
  ghost predicate EntryAt(mem: Memory, self: int, runs: Runs, parked: seq<Addr>, abroad: set<Chunk>, p: Addr) {
    && p + C.OWNER_WORD in mem
    && (if mem[p + C.OWNER_WORD] == self then OwnRun(runs, parked, p) else Abroad(abroad, p))
  }

  ghost predicate AllAt(mem: Memory, self: int, runs: Runs, parked: seq<Addr>, abroad: set<Chunk>, s: seq<Addr>) {
    forall p :: p in s ==> EntryAt(mem, self, runs, parked, abroad, p)
  }

  /** All entries are where their owner words say, and so are the runs in hand, which are
      none of the entries. */
  ghost predicate Held(mem: Memory, self: int, runs: Runs, parked: seq<Addr>, abroad: set<Chunk>, lists: seq<seq<Addr>>,
                       hand: seq<Addr>) {
    && (forall i :: 0 <= i < |lists| ==> AllAt(mem, self, runs, parked, abroad, lists[i]))
    && AllAt(mem, self, runs, parked, abroad, hand)
    && (forall p :: p in hand ==> C.ApartFromAll(lists, p))
    && C.Spread(hand)
  }

  ghost predicate ChunksApart(chunks: set<Chunk>, abroad: set<Chunk>) {
    forall c, d :: c in chunks && d in abroad ==> Apart(c, d)
  }

  /** The system hands out no region that some runner has already. */
  ghost predicate Separate(system: System, calls: nat, chunks: set<Chunk>, abroad: set<Chunk>) {
    SoundSystem(system, calls, chunks + abroad) && ChunksApart(chunks, abroad)
  }

  lemma SeparateLater(site: Site, c: Core, c': Core, abroad: set<Chunk>)
    requires Separate(site.system, c.calls, ChunkSet(c.chunks), abroad) && ChunksFrom(site, c, c')
    ensures Separate(site.system, c'.calls, ChunkSet(c'.chunks), abroad)
  {
    hide SoundSystem, FromSystem;
    var n := |c'.chunks| - |c.chunks|;
    forall x | x in ChunkSet(c'.chunks)
      ensures x in ChunkSet(c.chunks) || FromSystem(site, c.calls, c'.calls, x)
    {
      var i :| 0 <= i < |c'.chunks| && c'.chunks[i] == x;
      if i >= n {
        assert c'.chunks[n..][i - n] == x;
      }
    }
    SystemStays(site, c.calls, c'.calls, ChunkSet(c.chunks) + abroad, ChunkSet(c'.chunks) + abroad);
    forall x, d | x in ChunkSet(c'.chunks) && d in abroad
      ensures Apart(x, d)
    {
      if x !in ChunkSet(c.chunks) {
        FromApart(site, c.calls, c'.calls, ChunkSet(c.chunks) + abroad, x, d);
      }
    }
  }

  lemma FromApart(site: Site, lo: nat, hi: nat, chunks: set<Chunk>, x: Chunk, d: Chunk)
    requires SoundSystem(site.system, lo, chunks) && FromSystem(site, lo, hi, x) && d in chunks
    ensures Apart(x, d)
  {
  }

  // ---------- what an operation of the runner leaves ----------

  /** An allocated run stays: its size, every word of its payload, and that it is not
      parked. */
  ghost predicate KeepsRun(m0: Memory, m1: Memory, r0: Runs, r1: Runs, parked1: seq<Addr>, h: Addr) {
    && h in Live(r0) && h in Live(r1) && Live(r1)[h] == Live(r0)[h] && h !in parked1
    && forall a {:trigger a in m1} {:trigger m1[a]} :: a in m0 && h + HEADER_SIZE <= a < h + Live(r0)[h] ==>
         a in m1 && m1[a] == m0[a]
  }

  ghost predicate KeepsOwn(m0: Memory, m1: Memory, r0: Runs, r1: Runs, parked0: seq<Addr>, parked1: seq<Addr>,
                           s: seq<Addr>) {
    forall p :: p in s && OwnRun(r0, parked0, p) ==> KeepsRun(m0, m1, r0, r1, parked1, p - HEADER_SIZE)
  }

  /** Memory and heap of a runner, before or after. */
  ghost predicate HeapOk(mem: Memory, runs: Runs, chunks: set<Chunk>, self: int) {
    MemOk(mem, runs, chunks, self) && Heap(runs, chunks)
  }

  lemma LiveRun(mem: Memory, runs: Runs, chunks: set<Chunk>, self: int, h: Addr)
    requires HeapOk(mem, runs, chunks, self) && h in runs && !runs[h].free
    ensures h > 0 && runs[h].size >= MIN_RUN && runs[h].size % RUN_ALIGNMENT == 0 && h in Live(runs)
    ensures Live(runs)[h] == runs[h].size
    ensures h in mem && SizeField(mem[h]) == runs[h].size && h + WORD_BYTES in mem && mem[h + WORD_BYTES] == self
    ensures h + HEADER_SIZE in mem && h + HEADER_SIZE + C.STAMP in mem
  {
    assert RunWords(mem, runs, self, h) && RunOk(runs, chunks, h);
    hide Disjoint, Coalesced;
    RunInChunk(runs, chunks, h);
    HeapSteps.AlignedWords(h);
    assert WordOf(runs[h].home, h + NEXT) && WordOf(runs[h].home, h + PREV);
  }

  lemma OwnKept(m0: Memory, m1: Memory, r0: Runs, r1: Runs, parked0: seq<Addr>, parked1: seq<Addr>, c0: set<Chunk>,
                c1: set<Chunk>, self: int, abroad: set<Chunk>, p: Addr)
    requires HeapOk(m0, r0, c0, self) && HeapOk(m1, r1, c1, self) && OwnRun(r0, parked0, p)
    requires KeepsRun(m0, m1, r0, r1, parked1, p - HEADER_SIZE)
    ensures C.SameEntry(m0, m1, p) && OwnRun(r1, parked1, p) && p + C.OWNER_WORD in m1 && m1[p + C.OWNER_WORD] == self
  {
    hide HeapOk, SizeField;
    var h := p - HEADER_SIZE;
    LiveRun(m0, r0, c0, self, h);
    LiveRun(m1, r1, c1, self, h);
  }

  lemma AbroadKept(m0: Memory, m1: Memory, chunks: set<Chunk>, abroad: set<Chunk>, p: Addr)
    requires ElsewhereKept(m0, m1, chunks) && ChunksApart(chunks, abroad) && Abroad(abroad, p)
    ensures C.SameEntry(m0, m1, p)
    ensures p + C.OWNER_WORD in m0 ==> p + C.OWNER_WORD in m1 && m1[p + C.OWNER_WORD] == m0[p + C.OWNER_WORD]
  {
    var d :| d in abroad && d.begin <= p - HEADER_SIZE && p - HEADER_SIZE + MIN_RUN <= d.begin + d.bytes;
    forall a | p - HEADER_SIZE <= a < p - HEADER_SIZE + MIN_RUN
      ensures Elsewhere(chunks, a)
    {
      forall c | c in chunks
        ensures !(c.begin <= a < c.begin + c.bytes)
      {
        assert Apart(c, d);
      }
    }
  }

  lemma EntryKept(m0: Memory, m1: Memory, r0: Runs, r1: Runs, parked0: seq<Addr>, parked1: seq<Addr>, c0: set<Chunk>,
                  c1: set<Chunk>, self: int, abroad: set<Chunk>, p: Addr)
    requires HeapOk(m0, r0, c0, self) && HeapOk(m1, r1, c1, self) && EntryAt(m0, self, r0, parked0, abroad, p)
    requires OwnRun(r0, parked0, p) ==> KeepsRun(m0, m1, r0, r1, parked1, p - HEADER_SIZE)
    requires ElsewhereKept(m0, m1, c1) && ChunksApart(c1, abroad)
    ensures C.SameEntry(m0, m1, p) && EntryAt(m1, self, r1, parked1, abroad, p)
    ensures m1[p + C.OWNER_WORD] == m0[p + C.OWNER_WORD]
  {
    hide HeapOk, KeepsRun, ElsewhereKept, ChunksApart, Abroad, C.SameEntry;
    if m0[p + C.OWNER_WORD] == self {
      OwnKept(m0, m1, r0, r1, parked0, parked1, c0, c1, self, abroad, p);
    } else {
      AbroadKept(m0, m1, c1, abroad, p);
    }
  }

  /** The runner has worked on other runs only, so entries and runs in hand stay. */
  ghost predicate Spares(m0: Memory, m1: Memory, r0: Runs, r1: Runs, parked0: seq<Addr>, parked1: seq<Addr>,
                         lists: seq<seq<Addr>>, hand: seq<Addr>) {
    && (forall i :: 0 <= i < |lists| ==> KeepsOwn(m0, m1, r0, r1, parked0, parked1, lists[i]))
    && KeepsOwn(m0, m1, r0, r1, parked0, parked1, hand)
  }

  lemma HeldKept(m0: Memory, m1: Memory, r0: Runs, r1: Runs, parked0: seq<Addr>, parked1: seq<Addr>, c0: set<Chunk>,
                 c1: set<Chunk>, self: int, abroad: set<Chunk>, lists: seq<seq<Addr>>, hand: seq<Addr>)
    requires HeapOk(m0, r0, c0, self) && HeapOk(m1, r1, c1, self) && Held(m0, self, r0, parked0, abroad, lists, hand)
    requires Spares(m0, m1, r0, r1, parked0, parked1, lists, hand)
    requires ElsewhereKept(m0, m1, c1) && ChunksApart(c1, abroad)
    ensures Held(m1, self, r1, parked1, abroad, lists, hand) && C.Quiet(lists, m0, m1) && C.Quiet([hand], m0, m1)
  {
    hide HeapOk, KeepsRun, ElsewhereKept, ChunksApart, EntryAt, C.SameEntry, C.ApartFromAll, C.Spread, OwnRun;
    forall i, p | 0 <= i < |lists| && p in lists[i]
      ensures C.SameEntry(m0, m1, p) && EntryAt(m1, self, r1, parked1, abroad, p)
    {
      assert AllAt(m0, self, r0, parked0, abroad, lists[i]) && KeepsOwn(m0, m1, r0, r1, parked0, parked1, lists[i]);
      EntryKept(m0, m1, r0, r1, parked0, parked1, c0, c1, self, abroad, p);
    }
    forall p | p in hand
      ensures C.SameEntry(m0, m1, p) && EntryAt(m1, self, r1, parked1, abroad, p)
    {
      EntryKept(m0, m1, r0, r1, parked0, parked1, c0, c1, self, abroad, p);
    }
  }

  lemma KeepsTwice(m0: Memory, m1: Memory, m2: Memory, r0: Runs, r1: Runs, r2: Runs, q0: seq<Addr>, q1: seq<Addr>,
                   q2: seq<Addr>, s: seq<Addr>)
    requires KeepsOwn(m0, m1, r0, r1, q0, q1, s) && KeepsOwn(m1, m2, r1, r2, q1, q2, s)
    ensures KeepsOwn(m0, m2, r0, r2, q0, q2, s)
  {
    forall p | p in s && OwnRun(r0, q0, p)
      ensures KeepsRun(m0, m2, r0, r2, q2, p - HEADER_SIZE)
    {
      assert KeepsRun(m0, m1, r0, r1, q1, p - HEADER_SIZE);
      assert OwnRun(r1, q1, p);
      assert KeepsRun(m1, m2, r1, r2, q2, p - HEADER_SIZE);
    }
  }

  /** A run just granted is none of the entries, nor of the runs in hand. */
  lemma FreshEntry(mem: Memory, runs: Runs, parked: seq<Addr>, chunks: set<Chunk>, self: int, abroad: set<Chunk>,
                   lists: seq<seq<Addr>>, hand: seq<Addr>, p: Addr)
    requires HeapOk(mem, runs, chunks, self) && Held(mem, self, runs, parked, abroad, lists, hand)
    requires ChunksApart(chunks, abroad)
    requires OwnRun(runs, parked, p)
    requires (forall i :: 0 <= i < |lists| ==> p !in lists[i]) && p !in hand
    ensures Held(mem, self, runs, parked, abroad, lists, [p] + hand)
    ensures C.Usable(mem, lists, self, p)
  {
    hide Abroad, C.Spread, HeapOk;
    LiveRun(mem, runs, chunks, self, p - HEADER_SIZE);
    hide OwnRun;
    forall i, q | 0 <= i < |lists| && q in lists[i]
      ensures C.Apart(p, q)
    {
      assert AllAt(mem, self, runs, parked, abroad, lists[i]) && EntryAt(mem, self, runs, parked, abroad, q);
      FarFrom(mem, runs, parked, chunks, self, abroad, p, q);
    }
    forall q | q in hand
      ensures C.Apart(p, q)
    {
      assert EntryAt(mem, self, runs, parked, abroad, q);
      FarFrom(mem, runs, parked, chunks, self, abroad, p, q);
    }
    SpreadMore(hand, p);
  }

  lemma SpreadMore(s: seq<Addr>, p: Addr)
    requires C.Spread(s) && forall q :: q in s ==> C.Apart(p, q)
    ensures C.Spread([p] + s)
  {
    var t := [p] + s;
    forall i, j | 0 <= i < |t| && 0 <= j < |t| && i != j
      ensures C.Apart(t[i], t[j])
    {
      assert i > 0 ==> t[i] == s[i - 1] && t[i] in s;
      assert j > 0 ==> t[j] == s[j - 1] && t[j] in s;
    }
  }

  lemma FarFrom(mem: Memory, runs: Runs, parked: seq<Addr>, chunks: set<Chunk>, self: int, abroad: set<Chunk>, p: Addr,
                q: Addr)
    requires HeapOk(mem, runs, chunks, self) && ChunksApart(chunks, abroad) && OwnRun(runs, parked, p)
    requires EntryAt(mem, self, runs, parked, abroad, q) && p != q
    ensures C.Apart(p, q)
  {
    hide MemOk, Coalesced, RunOk, ChunkOk;
    RunInChunk(runs, chunks, p - HEADER_SIZE);
    if mem[q + C.OWNER_WORD] == self {
      RunInChunk(runs, chunks, q - HEADER_SIZE);
    } else {
      var d :| d in abroad && d.begin <= q - HEADER_SIZE && q - HEADER_SIZE + MIN_RUN <= d.begin + d.bytes;
      assert Apart(runs[p - HEADER_SIZE].home, d);
    }
  }

  // ---------- what the cache writes ----------

  ghost predicate OthersFar(lists: seq<seq<Addr>>, e: Addr) {
    forall i, q :: 0 <= i < |lists| && q in lists[i] ==> q == e || C.Apart(e, q)
  }

  /** Link and stamp of one entry change: nothing of the heap does. */
  lemma EntryWritten(m0: Memory, m1: Memory, runs: Runs, parked: seq<Addr>, chunks: set<Chunk>, self: int,
                     abroad: set<Chunk>, lists: seq<seq<Addr>>, hand: seq<Addr>, e: Addr)
    requires HeapOk(m0, runs, chunks, self) && ChunksApart(chunks, abroad) && EntryAt(m0, self, runs, parked, abroad, e)
    requires C.KeptButEntry(m0, m1, e) && Held(m0, self, runs, parked, abroad, lists, hand)
    requires OthersFar(lists, e) && forall q :: q in hand ==> q == e || C.Apart(e, q)
    requires e in m1 && (e + C.STAMP in m0 ==> e + C.STAMP in m1)
    ensures UserWrites(m0, m1, runs, chunks, parked) && Held(m1, self, runs, parked, abroad, lists, hand)
  {
    OneEntryWritten(m0, m1, runs, parked, chunks, self, abroad, e);
    hide HeapOk, ChunksApart, UserWrites, C.ApartFromAll, C.Spread;
    forall i, q | 0 <= i < |lists| && q in lists[i]
      ensures EntryAt(m1, self, runs, parked, abroad, q)
    {
      assert AllAt(m0, self, runs, parked, abroad, lists[i]);
      assert EntryAt(m0, self, runs, parked, abroad, q) && (q == e || C.Apart(e, q));
    }
    forall q | q in hand
      ensures EntryAt(m1, self, runs, parked, abroad, q)
    {
      assert EntryAt(m0, self, runs, parked, abroad, q);
    }
  }

  lemma OneEntryWritten(m0: Memory, m1: Memory, runs: Runs, parked: seq<Addr>, chunks: set<Chunk>, self: int,
                        abroad: set<Chunk>, e: Addr)
    requires HeapOk(m0, runs, chunks, self) && ChunksApart(chunks, abroad) && EntryAt(m0, self, runs, parked, abroad, e)
    requires C.KeptButEntry(m0, m1, e) && e in m1 && (e + C.STAMP in m0 ==> e + C.STAMP in m1)
    ensures UserWrites(m0, m1, runs, chunks, parked)
  {
    hide MemOk, Heap;
    if m0[e + C.OWNER_WORD] == self {
      LiveRun(m0, runs, chunks, self, e - HEADER_SIZE);
      forall a | a in m0 && (a == e || a == e + C.STAMP)
        ensures InPayload(runs, e - HEADER_SIZE, a) && e - HEADER_SIZE !in parked
      {
      }
    } else {
      var d :| d in abroad && d.begin <= e - HEADER_SIZE && e - HEADER_SIZE + MIN_RUN <= d.begin + d.bytes;
      forall a | a == e || a == e + C.STAMP
        ensures Elsewhere(chunks, a)
      {
        forall c | c in chunks
          ensures !(c.begin <= a < c.begin + c.bytes)
        {
          assert Apart(c, d);
        }
      }
    }
  }

  // ... and the payloads of the runs in hand do not change either.
  lemma HandUnwritten(m0: Memory, m1: Memory, runs: Runs, parked: seq<Addr>, chunks: set<Chunk>, self: int,
                      abroad: set<Chunk>, hand: seq<Addr>, e: Addr)
    requires HeapOk(m0, runs, chunks, self) && ChunksApart(chunks, abroad) && EntryAt(m0, self, runs, parked, abroad, e)
    requires C.KeptButEntry(m0, m1, e) && e !in hand
    ensures KeepsOwn(m0, m1, runs, runs, parked, parked, hand)
  {
    hide MemOk, Coalesced, RunOk, ChunkOk;
    forall p | p in hand && OwnRun(runs, parked, p)
      ensures KeepsRun(m0, m1, runs, runs, parked, p - HEADER_SIZE)
    {
      var h := p - HEADER_SIZE;
      RunInChunk(runs, chunks, h);
      if m0[e + C.OWNER_WORD] == self {
        RunInChunk(runs, chunks, e - HEADER_SIZE);
      } else {
        var d :| d in abroad && d.begin <= e - HEADER_SIZE && e - HEADER_SIZE + MIN_RUN <= d.begin + d.bytes;
        assert Apart(runs[h].home, d);
      }
    }
  }

  // ---------- when allocations throw ----------

  /** What the runner knows after k allocations of so many bytes. */
  function Nth(site: Site, c: Core, bytes: nat, k: nat): (r: Core)
    requires WordsOk(site, c) && IsWord(bytes)
    ensures WordsOk(site, r)
  {
    if k == 0 then c else Allocated(site, Nth(site, c, bytes, k - 1), bytes, 1).0
  }

  lemma ClassesServable(bytes: nat)
    requires 0 < bytes <= C.CUTOFF
    ensures IsWord(bytes) && Servable(bytes, 1) && RunBytesFor(bytes) >= bytes + HEADER_SIZE
  {
    NormalizedIsLeast(bytes);
  }

  /** An allocation throws: no run fits even with the parked ones freed, and no memory
      is to be had. */
  ghost predicate ThrowsAt(site: Site, c: Core, bytes: nat, k: nat)
    requires WordsOk(site, c) && 0 < bytes <= C.CUTOFF
  {
    ClassesServable(bytes);
    Throws(site, Nth(site, c, bytes, k), RunBytesFor(bytes))
  }

  ghost predicate QuietBefore(site: Site, c: Core, bytes: nat, k: nat)
    requires WordsOk(site, c) && 0 < bytes <= C.CUTOFF
  {
    forall j: nat :: j < k ==> !ThrowsAt(site, c, bytes, j)
  }

  /** The first allocation that throws is one of those numbered from lo to 3. */
  ghost predicate FirstThrowFrom(site: Site, c: Core, bytes: nat, lo: nat)
    requires WordsOk(site, c) && 0 < bytes <= C.CUTOFF
  {
    exists k: nat :: lo <= k <= 3 && ThrowsAt(site, c, bytes, k) && QuietBefore(site, c, bytes, k)
  }

  lemma FirstThrowIs(site: Site, c: Core, bytes: nat, k: nat)
    requires WordsOk(site, c) && 0 < bytes <= C.CUTOFF && k <= 3
    requires QuietBefore(site, c, bytes, k) && ThrowsAt(site, c, bytes, k)
    ensures FirstThrowFrom(site, c, bytes, 0) && (FirstThrowFrom(site, c, bytes, 1) <==> k >= 1)
  {
    hide ThrowsAt;
  }

  lemma NoThrow(site: Site, c: Core, bytes: nat)
    requires WordsOk(site, c) && 0 < bytes <= C.CUTOFF && QuietBefore(site, c, bytes, 4)
    ensures !FirstThrowFrom(site, c, bytes, 0) && !FirstThrowFrom(site, c, bytes, 1)
  {
    hide ThrowsAt;
  }

  // ---------- the cache and the runner together ----------

  /** The cache of a thread and the thread's runner: one memory, every entry where its
      owner word says, every run in hand none of the entries. */
  ghost predicate Joined(c: C.Cache, a: Allocator, abroad: set<Chunk>, hand: seq<Addr>)
    reads c, c.heads, c.counts, a, a.bins, a.mask
  {
    && c.Valid() && a.Valid()
    && c.heads as object != a.bins && c.heads as object != a.mask && c.counts as object != a.bins &&
       c.counts as object != a.mask
    && c.local == a.self && c.mem == a.mem && |c.lists| == c.heads.Length == c.counts.Length == C.CLASS_COUNT
    && Held(a.mem, a.self, a.runs, a.parked, abroad, c.lists, hand)
    && Separate(a.system, a.calls, ChunkSet(a.chunks), abroad)
  }

  lemma SoundHeap(a: Allocator)
    requires a.Valid()
    ensures HeapOk(a.mem, a.runs, ChunkSet(a.chunks), a.self) && PagesOk(a.Where()) && WordsOk(a.Where(), a.Knows())
    ensures a.self != 0
  {
    a.GranularityOk();
    a.WordsKnown();
  }

  lemma AllocationSpares(m0: Memory, m1: Memory, r0: Runs, r1: Runs, parked0: seq<Addr>, parked1: seq<Addr>,
                         s: seq<Addr>)
    requires OtherPayloadsKept(m0, m1, r0, parked0)
    requires forall h :: h in Live(r0) && h !in parked0 ==> h in Live(r1) && Live(r1)[h] == Live(r0)[h] && h !in parked1
    ensures KeepsOwn(m0, m1, r0, r1, parked0, parked1, s)
  {
    forall p | p in s && OwnRun(r0, parked0, p)
      ensures KeepsRun(m0, m1, r0, r1, parked1, p - HEADER_SIZE)
    {
      var h := p - HEADER_SIZE;
      assert h in Live(r0);
      forall x: Addr | x in m0 && h + HEADER_SIZE <= x < h + Live(r0)[h]
        ensures x in m1 && m1[x] == m0[x]
      {
        assert InPayload(r0, h, x);
      }
    }
  }

  lemma FreeSpares(m0: Memory, m1: Memory, r0: Runs, chunks: set<Chunk>, parked: seq<Addr>, g: Addr, s: seq<Addr>)
    requires Heap(r0, chunks) && g in r0 && !r0[g].free && PayloadsKept(m0, m1, r0, g)
    requires forall p :: p in s ==> p - HEADER_SIZE != g
    ensures KeepsOwn(m0, m1, r0, Release(r0, g), parked, parked, s)
  {
    ReleaseKeeps(r0, chunks, g);
    hide Heap, Release;
    forall p | p in s && OwnRun(r0, parked, p)
      ensures KeepsRun(m0, m1, r0, Release(r0, g), parked, p - HEADER_SIZE)
    {
      var h := p - HEADER_SIZE;
      assert h in Live(r0) && h in Live(Release(r0, g));
      forall x: Addr | x in m0 && h + HEADER_SIZE <= x < h + Live(r0)[h]
        ensures x in m1 && m1[x] == m0[x]
      {
        assert InPayload(r0, h, x);
      }
    }
  }

  // A run that was free, or parked, is none of the entries.
  lemma NotAnEntry(m0: Memory, m1: Memory, r0: Runs, r1: Runs, parked0: seq<Addr>, parked1: seq<Addr>,
                   chunks: set<Chunk>, self: int, abroad: set<Chunk>, s: seq<Addr>, p: Addr)
    requires HeapOk(m1, r1, chunks, self) && AllAt(m0, self, r0, parked0, abroad, s) && C.Quiet([s], m0, m1)
    requires OwnRun(r1, parked1, p) && (p - HEADER_SIZE in Live(r0) ==> p - HEADER_SIZE in parked0)
    ensures p !in s
  {
    hide HeapOk, Abroad;
    LiveRun(m1, r1, chunks, self, p - HEADER_SIZE);
    assert p in s ==> p in [s][0] && EntryAt(m0, self, r0, parked0, abroad, p);
    assert p in s ==> C.SameEntry(m0, m1, p);
  }

  lemma AfterAllocation(m0: Memory, m1: Memory, r0: Runs, r1: Runs, parked0: seq<Addr>, parked1: seq<Addr>,
                        c0: set<Chunk>, c1: set<Chunk>, self: int, abroad: set<Chunk>, lists: seq<seq<Addr>>,
                        hand: seq<Addr>)
    requires HeapOk(m0, r0, c0, self) && HeapOk(m1, r1, c1, self) && Held(m0, self, r0, parked0, abroad, lists, hand)
    requires OtherPayloadsKept(m0, m1, r0, parked0)
    requires forall h :: h in Live(r0) && h !in parked0 ==> h in Live(r1) && Live(r1)[h] == Live(r0)[h] && h !in parked1
    requires ElsewhereKept(m0, m1, c1) && ChunksApart(c1, abroad)
    ensures Held(m1, self, r1, parked1, abroad, lists, hand) && C.Quiet(lists, m0, m1) && C.Quiet([hand], m0, m1)
    ensures KeepsOwn(m0, m1, r0, r1, parked0, parked1, hand)
  {
    forall i | 0 <= i < |lists|
      ensures KeepsOwn(m0, m1, r0, r1, parked0, parked1, lists[i])
    {
      AllocationSpares(m0, m1, r0, r1, parked0, parked1, lists[i]);
    }
    AllocationSpares(m0, m1, r0, r1, parked0, parked1, hand);
    hide HeapOk, Held, OtherPayloadsKept, ElsewhereKept, ChunksApart, KeepsOwn, C.Quiet;
    HeldKept(m0, m1, r0, r1, parked0, parked1, c0, c1, self, abroad, lists, hand);
  }

  lemma AfterGrant(m0: Memory, m1: Memory, r0: Runs, r1: Runs, parked0: seq<Addr>, parked1: seq<Addr>,
                   chunks: set<Chunk>, self: int, abroad: set<Chunk>, lists: seq<seq<Addr>>, hand: seq<Addr>, p: Addr)
    requires HeapOk(m1, r1, chunks, self) && ChunksApart(chunks, abroad)
    requires Held(m0, self, r0, parked0, abroad, lists, hand) && Held(m1, self, r1, parked1, abroad, lists, hand)
    requires C.Quiet(lists, m0, m1) && C.Quiet([hand], m0, m1)
    requires OwnRun(r1, parked1, p) && (p - HEADER_SIZE in Live(r0) ==> p - HEADER_SIZE in parked0)
    ensures Held(m1, self, r1, parked1, abroad, lists, [p] + hand) && C.Usable(m1, lists, self, p)
  {
    hide HeapOk, ChunksApart, AllAt, OwnRun, C.Spread, C.SameEntry, C.ApartFromAll;
    NotAnEntry(m0, m1, r0, r1, parked0, parked1, chunks, self, abroad, hand, p);
    forall i | 0 <= i < |lists|
      ensures p !in lists[i]
    {
      assert [lists[i]][0] == lists[i];
      NotAnEntry(m0, m1, r0, r1, parked0, parked1, chunks, self, abroad, lists[i], p);
    }
    hide Held, C.Quiet;
    FreshEntry(m1, r1, parked1, chunks, self, abroad, lists, hand, p);
  }

  lemma ChunksStay(site: Site, c: Core, c': Core)
    requires ChunksFrom(site, c, c')
    ensures ChunkSet(c.chunks) <= ChunkSet(c'.chunks)
  {
    var n := |c'.chunks| - |c.chunks|;
    forall x | x in ChunkSet(c.chunks)
      ensures x in ChunkSet(c'.chunks)
    {
      var i :| 0 <= i < |c.chunks| && c.chunks[i] == x;
      assert c'.chunks[n..][i] == c'.chunks[n + i];
    }
  }

  /** One allocation of the thread's runner: entries and runs in hand are spared, and the
      new run is none of them. */
  method TakeOne(c: C.Cache, a: Allocator, bytes: nat, ghost abroad: set<Chunk>, ghost hand: seq<Addr>)
    returns (out: Outcome)
    requires 0 < bytes <= C.CUTOFF
    requires Joined(c, a, abroad, hand)
    modifies a, a.bins, a.mask, c`mem
    ensures Joined(c, a, abroad, if out.Got? then [out.p] + hand else hand)
    ensures IsWord(bytes) && WordsOk(a.Where(), old(a.Knows()))
    ensures (a.Knows(), out) == Allocated(a.Where(), old(a.Knows()), bytes, 1)
    ensures (out == BadAlloc <==> ThrowsAt(a.Where(), old(a.Knows()), bytes, 0)) && (a.canGrow ==> out != Null)
    ensures out.Got? ==> OwnRun(a.runs, a.parked, out.p) && bytes <= a.runs[out.p - HEADER_SIZE].size - HEADER_SIZE
    ensures out.Got? ==> C.Usable(a.mem, c.lists, a.self, out.p)
    ensures C.Quiet(c.lists, old(a.mem), a.mem) && ElsewhereKept(old(a.mem), a.mem, ChunkSet(a.chunks))
    ensures ChunkSet(old(a.chunks)) <= ChunkSet(a.chunks)
    ensures KeepsOwn(old(a.mem), a.mem, old(a.runs), a.runs, old(a.parked), a.parked, hand)
  {
    hide C.Cache.Valid, Allocator.Sound, Allocator.GrowthOk, Held, Allocated, Throws, Exhausted, Brought, ReleaseAll;
    hide Servable, HeapOk;
    hide SoundSystem, OtherPayloadsKept, ElsewhereKept, NoFit, KeepsOwn, C.Quiet, C.Usable, RunBytesFor, ChunksFrom;
    hide PagesOk;
    ghost var m0, r0, q0, cs0, site, core := a.mem, a.runs, a.parked, ChunkSet(a.chunks), a.Where(), a.Knows();
    SoundHeap(a);
    ClassesServable(bytes);
    out := a.AllocateBytes(bytes, 1);
    SoundHeap(a);
    AllocatedFrom(site, core, bytes, 1);
    SeparateLater(site, core, a.Knows(), abroad);
    ChunksStay(site, core, a.Knows());
    AfterAllocation(m0, a.mem, r0, a.runs, q0, a.parked, cs0, ChunkSet(a.chunks), a.self, abroad, c.lists, hand);
    if out.Got? {
      assert out.p - HEADER_SIZE in Live(a.runs);
      assert OwnRun(a.runs, a.parked, out.p);
      assert out.p - HEADER_SIZE in Live(r0) ==> out.p - HEADER_SIZE in q0;
      AfterGrant(m0, a.mem, r0, a.runs, q0, a.parked, ChunkSet(a.chunks), a.self, abroad, c.lists, hand, out.p);
    }
    c.Elsewhere(a.mem);
  }

  // ---------- entries come and go ----------

  lemma ListIn(mem: Memory, self: int, runs: Runs, parked: seq<Addr>, abroad: set<Chunk>, lists: seq<seq<Addr>>,
               hand: seq<Addr>, idx: nat, p: Addr)
    requires Held(mem, self, runs, parked, abroad, lists, [p] + hand) && idx < |lists|
    ensures Held(mem, self, runs, parked, abroad, lists[idx := [p] + lists[idx]], hand)
    ensures OthersFar(lists[idx := [p] + lists[idx]], p)
    ensures forall q :: q in hand ==> C.Apart(p, q) && q != p
    ensures EntryAt(mem, self, runs, parked, abroad, p) && C.ApartFromAll(lists, p)
  {
    hide EntryAt;
    var after, t := lists[idx := [p] + lists[idx]], [p] + hand;
    assert t[0] == p && p in t;
    forall q | q in hand
      ensures q in t && C.Apart(p, q)
    {
      var j :| 0 <= j < |hand| && hand[j] == q;
      assert t[j + 1] == q;
    }
    forall i, j | 0 <= i < |hand| && 0 <= j < |hand| && i != j
      ensures C.Apart(hand[i], hand[j])
    {
      assert t[i + 1] == hand[i] && t[j + 1] == hand[j];
    }
    forall i | 0 <= i < |after|
      ensures AllAt(mem, self, runs, parked, abroad, after[i])
    {
      assert AllAt(mem, self, runs, parked, abroad, lists[i]);
    }
    forall q, i, x | q in hand && 0 <= i < |after| && x in after[i]
      ensures C.Apart(q, x)
    {
      if x != p {
        assert x in lists[i];
      }
    }
  }

  // An entry that leaves its list is in hand.
  lemma ListOut(mem: Memory, self: int, runs: Runs, parked: seq<Addr>, abroad: set<Chunk>, lists: seq<seq<Addr>>,
                hand: seq<Addr>, idx: nat, p: Addr, t: seq<Addr>)
    requires Held(mem, self, runs, parked, abroad, lists, hand) && idx < |lists| && p in lists[idx]
    requires (forall q :: q in t ==> q in lists[idx]) && C.ApartFromAll(lists[idx := t], p)
    ensures Held(mem, self, runs, parked, abroad, lists[idx := t], [p] + hand)
    ensures EntryAt(mem, self, runs, parked, abroad, p) && p !in hand && p !in t
  {
    hide EntryAt;
    assert AllAt(mem, self, runs, parked, abroad, lists[idx]);
    forall q | q in hand
      ensures C.Apart(p, q) && q != p
    {
      assert C.ApartFromAll(lists, q);
      assert C.Apart(q, p);
    }
    SpreadMore(hand, p);
    assert lists[idx := t][idx] == t;
    assert p in lists[idx := t][idx] ==> C.Apart(p, p);
    forall i, x | 0 <= i < |lists| && x in lists[idx := t][i]
      ensures x in lists[i]
    {
    }
  }

  /** `_tls_push` on the thread's own memory. */
  method PutBy(c: C.Cache, a: Allocator, idx: nat, p: Addr, ghost abroad: set<Chunk>, ghost hand: seq<Addr>)
    requires idx < C.CLASS_COUNT && p > 0
    requires Joined(c, a, abroad, [p] + hand)
    requires C.Roomy(a.mem, p, idx) && p + C.OWNER_WORD in a.mem && a.mem[p + C.OWNER_WORD] != 0
    requires |c.lists[idx]| < C.HIGH_WATERMARK + C.REFILL_BATCH - 1
    requires |c.lists[idx]| < C.HIGH_WATERMARK || a.mem[p + C.OWNER_WORD] == a.self
    modifies a`mem, c`mem, c`lists, c.heads, c.counts
    ensures Joined(c, a, abroad, hand)
    ensures c.lists == old(c.lists)[idx := [p] + old(c.lists)[idx]]
    ensures a.mem == C.Pushed(old(a.mem), C.HeadOf(old(c.lists)[idx]), p)
    ensures C.Quiet([hand], old(a.mem), a.mem)
    ensures KeepsOwn(old(a.mem), a.mem, a.runs, a.runs, a.parked, a.parked, hand)
  {
    hide C.Cache.Valid, Allocator.Sound, Allocator.GrowthOk, Held, HeapOk, SoundSystem, KeepsOwn, UserWrites;
    hide C.ApartFromAll, EntryAt, C.Roomy, C.Apart;
    ghost var m0, lists := a.mem, c.lists;
    SoundHeap(a);
    ClassCount(c);
    ListIn(a.mem, a.self, a.runs, a.parked, abroad, c.lists, hand, idx, p);
    c.Push(idx, p);
    assert C.KeptButEntry(m0, c.mem, p);
    EntryWritten(m0, c.mem, a.runs, a.parked, ChunkSet(a.chunks), a.self, abroad, c.lists, hand, p);
    HandUnwritten(m0, c.mem, a.runs, a.parked, ChunkSet(a.chunks), a.self, abroad, hand, p);
    HandQuiet(m0, c.mem, hand, p);
    a.Written(c.mem);
  }

  lemma HandQuiet(m0: Memory, m1: Memory, hand: seq<Addr>, p: Addr)
    requires C.KeptButEntry(m0, m1, p) && forall q :: q in hand ==> C.Apart(p, q)
    ensures C.Quiet([hand], m0, m1)
  {
    forall q | q in hand
      ensures C.SameEntry(m0, m1, q)
    {
      assert C.Apart(p, q);
    }
  }

  lemma ClassCount(c: C.Cache)
    requires c.Valid()
    ensures |c.lists| == C.CLASS_COUNT && c.heads.Length == c.counts.Length == C.CLASS_COUNT
  {
  }

  /** `_tls_pop_for_owner` for the thread's own runner. */
  method PopOwn(c: C.Cache, a: Allocator, idx: nat, ghost abroad: set<Chunk>, ghost hand: seq<Addr>) returns (p: Addr,
                ghost k: int)
    requires idx < C.CLASS_COUNT
    requires Joined(c, a, abroad, hand)
    modifies a`mem, c`mem, c`lists, c.heads, c.counts
    ensures Joined(c, a, abroad, if p != 0 then [p] + hand else hand)
    ensures p == 0 ==> c.lists == old(c.lists) && a.mem == old(a.mem) && C.NoneOwned(a.mem, c.lists[idx], a.self)
    ensures p != 0 ==>
              && C.IsFirstOwned(old(a.mem), old(c.lists)[idx], k, a.self) && p == old(c.lists)[idx][k]
              && c.lists == old(c.lists)[idx := C.Without(old(c.lists)[idx], k)]
              && OwnRun(a.runs, a.parked, p) && C.ClassBytes(idx) <= a.runs[p - HEADER_SIZE].size - HEADER_SIZE
              && a.mem == C.Unhooked(old(a.mem), old(c.lists)[idx], k)
    ensures KeepsOwn(old(a.mem), a.mem, a.runs, a.runs, a.parked, a.parked, hand)
  {
    hide C.Cache.Valid, Allocator.Sound, Allocator.GrowthOk, Held, HeapOk, SoundSystem, KeepsOwn, UserWrites;
    hide C.ApartFromAll, EntryAt, C.Apart;
    hide C.NoneOwned;
    ghost var m0, lists := a.mem, c.lists;
    SoundHeap(a);
    ClassCount(c);
    ClassesApartIn(c);
    NothingWritten(a.mem, a.runs, a.parked, hand);
    p, k := c.PopForOwner(idx, a.self);
    if p == 0 {
      return;
    }
    ghost var s, cs := lists[idx], ChunkSet(a.chunks);
    C.RemoveSpread(s, k);
    ListOut(m0, a.self, a.runs, a.parked, abroad, lists, hand, idx, p, C.Without(s, k));
    PoppedWrites(m0, c.mem, a.runs, a.parked, cs, a.self, abroad, lists, [p] + hand, idx, k);
    assert forall q :: q in hand ==> q in [p] + hand;
    KeepsFewer(m0, c.mem, a.runs, a.runs, a.parked, a.parked, [p] + hand, hand);
    a.Written(c.mem);
    SoundHeap(a);
    InHand(a.mem, a.runs, a.parked, cs, a.self, abroad, c.lists, [p] + hand, p);
  }

  lemma ClassesApartIn(c: C.Cache)
    requires c.Valid()
    ensures C.ClassesApart(c.lists) && forall i :: 0 <= i < C.CLASS_COUNT ==> C.Spread(c.lists[i])
  {
    hide C.ClassesApart, C.Spread;
    forall i | 0 <= i < C.CLASS_COUNT
      ensures C.Spread(c.lists[i])
    {
      assert C.ClassOk(c.mem, c.heads[i], c.counts[i], c.lists[i], i, c.local);
    }
  }

  lemma NothingWritten(mem: Memory, runs: Runs, parked: seq<Addr>, hand: seq<Addr>)
    ensures KeepsOwn(mem, mem, runs, runs, parked, parked, hand)
  {
  }

  lemma KeepsFewer(m0: Memory, m1: Memory, r0: Runs, r1: Runs, q0: seq<Addr>, q1: seq<Addr>, s: seq<Addr>, t: seq<Addr>)
    requires KeepsOwn(m0, m1, r0, r1, q0, q1, s) && forall p :: p in t ==> p in s
    ensures KeepsOwn(m0, m1, r0, r1, q0, q1, t)
  {
  }

  // Unhooking entry k writes the link of the entry before it, if there is one.
  lemma PoppedWrites(m0: Memory, m1: Memory, runs: Runs, parked: seq<Addr>, chunks: set<Chunk>, self: int,
                     abroad: set<Chunk>, lists: seq<seq<Addr>>, hand: seq<Addr>, idx: nat, k: nat)
    requires HeapOk(m0, runs, chunks, self) && ChunksApart(chunks, abroad) && idx < |lists| && k < |lists[idx]|
    requires C.ClassesApart(lists) && C.Spread(lists[idx]) && m1 == C.Unhooked(m0, lists[idx], k)
    requires Held(m0, self, runs, parked, abroad, lists[idx := C.Without(lists[idx], k)], hand)
    ensures Held(m1, self, runs, parked, abroad, lists[idx := C.Without(lists[idx], k)], hand)
    ensures UserWrites(m0, m1, runs, chunks, parked) && KeepsOwn(m0, m1, runs, runs, parked, parked, hand)
  {
    var s := lists[idx];
    var after := lists[idx := C.Without(s, k)];
    NothingWritten(m0, runs, parked, hand);
    SameWrites(m0, runs, chunks, parked);
    hide HeapOk, ChunksApart, UserWrites, KeepsOwn, EntryAt;
    if k > 0 && s[k] in m0 {
      var e := s[k - 1];
      assert C.Without(s, k)[k - 1] == e;
      assert e in after[idx] && AllAt(m0, self, runs, parked, abroad, after[idx]);
      BeforeFar(lists, idx, k);
      assert forall q :: q in hand ==> C.ApartFromAll(after, q);
      assert forall q :: q in hand ==> C.Apart(q, e);
      assert C.KeptButEntry(m0, m1, e);
      hide C.ApartFromAll, AllAt, C.Spread, C.ClassesApart;
      EntryWritten(m0, m1, runs, parked, chunks, self, abroad, after, hand, e);
      HandUnwritten(m0, m1, runs, parked, chunks, self, abroad, hand, e);
    }
  }

  lemma SameWrites(mem: Memory, runs: Runs, chunks: set<Chunk>, parked: seq<Addr>)
    ensures UserWrites(mem, mem, runs, chunks, parked)
  {
  }

  lemma BeforeFar(lists: seq<seq<Addr>>, idx: nat, k: nat)
    requires C.ClassesApart(lists) && idx < |lists| && 0 < k < |lists[idx]| && C.Spread(lists[idx])
    ensures OthersFar(lists[idx := C.Without(lists[idx], k)], lists[idx][k - 1])
  {
    var s := lists[idx];
    var after := lists[idx := C.Without(s, k)];
    C.RemoveSpread(s, k);
    forall i, q | 0 <= i < |after| && q in after[i]
      ensures q == s[k - 1] || C.Apart(s[k - 1], q)
    {
      if i == idx {
        assert q in s;
        var j :| 0 <= j < |s| && s[j] == q;
        assert j != k - 1 ==> C.Apart(s[k - 1], s[j]);
      } else {
        assert s[k - 1] in lists[idx] && q in lists[i];
      }
    }
  }

  lemma InHand(mem: Memory, runs: Runs, parked: seq<Addr>, chunks: set<Chunk>, self: int, abroad: set<Chunk>,
               lists: seq<seq<Addr>>, hand: seq<Addr>, p: Addr)
    requires HeapOk(mem, runs, chunks, self) && Held(mem, self, runs, parked, abroad, lists, hand) && p in hand
    ensures EntryAt(mem, self, runs, parked, abroad, p)
    ensures mem[p + C.OWNER_WORD] == self ==>
              OwnRun(runs, parked, p) && p - HEADER_SIZE in mem &&
                  C.PayloadAt(mem, p) == runs[p - HEADER_SIZE].size - HEADER_SIZE
  {
    if mem[p + C.OWNER_WORD] == self {
      LiveRun(mem, runs, chunks, self, p - HEADER_SIZE);
    }
  }

  // ---------- sending runs home ----------

  lemma FewerInHand(mem: Memory, self: int, runs: Runs, parked: seq<Addr>, abroad: set<Chunk>, lists: seq<seq<Addr>>,
                    hand: seq<Addr>, p: Addr)
    requires Held(mem, self, runs, parked, abroad, lists, [p] + hand)
    ensures Held(mem, self, runs, parked, abroad, lists, hand) && C.ApartFromAll(lists, p)
    ensures OthersFar(lists, p) && forall q :: q in hand ==> C.Apart(p, q) && q != p
  {
    hide EntryAt;
    var t := [p] + hand;
    assert t[0] == p && p in t;
    forall q | q in hand
      ensures q in t && C.Apart(p, q)
    {
      var j :| 0 <= j < |hand| && hand[j] == q;
      assert t[j + 1] == q;
    }
    forall i, j | 0 <= i < |hand| && 0 <= j < |hand| && i != j
      ensures C.Apart(hand[i], hand[j])
    {
      assert t[i + 1] == hand[i] && t[j + 1] == hand[j];
    }
  }

  lemma OwnLive(mem: Memory, runs: Runs, chunks: set<Chunk>, self: int, p: Addr)
    requires HeapOk(mem, runs, chunks, self) && p - HEADER_SIZE in runs && !runs[p - HEADER_SIZE].free
    ensures p > 0 && Live(Release(runs, p - HEADER_SIZE)) == Live(runs) - {p - HEADER_SIZE}
  {
    LiveRun(mem, runs, chunks, self, p - HEADER_SIZE);
    ReleaseKeeps(runs, chunks, p - HEADER_SIZE);
  }

  lemma AfterFree(m0: Memory, m1: Memory, runs: Runs, parked: seq<Addr>, chunks: set<Chunk>, self: int,
                  abroad: set<Chunk>, lists: seq<seq<Addr>>, hand: seq<Addr>, p: Addr)
    requires HeapOk(m0, runs, chunks, self) && p - HEADER_SIZE in runs && !runs[p - HEADER_SIZE].free
    requires HeapOk(m1, Release(runs, p - HEADER_SIZE), chunks, self)
    requires Held(m0, self, runs, parked, abroad, lists, hand)
    requires PayloadsKept(m0, m1, runs, p - HEADER_SIZE) && ElsewhereKept(m0, m1, chunks) && ChunksApart(chunks, abroad)
    requires C.ApartFromAll(lists, p) && forall q :: q in hand ==> C.Apart(p, q) && q != p
    ensures Held(m1, self, Release(runs, p - HEADER_SIZE), parked, abroad, lists, hand)
    ensures C.Quiet(lists, m0, m1) && C.Quiet([hand], m0, m1)
    ensures KeepsOwn(m0, m1, runs, Release(runs, p - HEADER_SIZE), parked, parked, hand)
  {
    hide MemOk, Heap, Held, PayloadsKept, ElsewhereKept, ChunksApart, Release, KeepsOwn, C.Quiet;
    forall i | 0 <= i < |lists|
      ensures KeepsOwn(m0, m1, runs, Release(runs, p - HEADER_SIZE), parked, parked, lists[i])
    {
      assert forall q :: q in lists[i] ==> C.Apart(p, q);
      FreeSpares(m0, m1, runs, chunks, parked, p - HEADER_SIZE, lists[i]);
    }
    FreeSpares(m0, m1, runs, chunks, parked, p - HEADER_SIZE, hand);
    HeldKept(m0, m1, runs, Release(runs, p - HEADER_SIZE), parked, parked, chunks, chunks, self, abroad, lists, hand);
  }

  lemma ForeignWritten(m0: Memory, m1: Memory, runs: Runs, parked: seq<Addr>, chunks: set<Chunk>, self: int,
                       abroad: set<Chunk>, lists: seq<seq<Addr>>, hand: seq<Addr>, p: Addr)
    requires HeapOk(m0, runs, chunks, self) && ChunksApart(chunks, abroad) && EntryAt(m0, self, runs, parked, abroad, p)
    requires C.KeptButEntry(m0, m1, p) && p in m1 && (p + C.STAMP in m0 ==> p + C.STAMP in m1)
    requires Held(m0, self, runs, parked, abroad, lists, hand) && C.ApartFromAll(lists, p)
    requires OthersFar(lists, p) && forall q :: q in hand ==> C.Apart(p, q) && q != p
    ensures Held(m1, self, runs, parked, abroad, lists, hand) && C.Quiet(lists, m0, m1) && C.Quiet([hand], m0, m1)
    ensures UserWrites(m0, m1, runs, chunks, parked) && KeepsOwn(m0, m1, runs, runs, parked, parked, hand)
  {
    EntryWritten(m0, m1, runs, parked, chunks, self, abroad, lists, hand, p);
    HandUnwritten(m0, m1, runs, parked, chunks, self, abroad, hand, p);
    hide HeapOk, ChunksApart, EntryAt, Held, UserWrites, KeepsOwn;
    forall i, q | 0 <= i < |lists| && q in lists[i]
      ensures C.SameEntry(m0, m1, q)
    {
      assert C.Apart(p, q);
    }
    forall q | q in hand
      ensures C.SameEntry(m0, m1, q)
    {
      assert C.Apart(p, q);
    }
  }

  /** One run that the thread has is freed, or, if it is another's, goes on its owner's
      remote stack, whose head was `head`. */
  method SendHome(c: C.Cache, a: Allocator, p: Addr, own: bool, head: Addr, ghost abroad: set<Chunk>,
                  ghost hand: seq<Addr>)
    requires Joined(c, a, abroad, [p] + hand)
    requires p + C.OWNER_WORD in a.mem && (own <==> a.mem[p + C.OWNER_WORD] == a.self)
    modifies a`mem, a`lists, a`runs, a.bins, a.mask, c`mem
    ensures Joined(c, a, abroad, hand)
    ensures WordsOk(a.Where(), old(a.Knows()))
    ensures a.Knows() == if own then Perform(a.Where(), old(a.Knows()), Deallocate(p)).0 else old(a.Knows())
    ensures if own then Live(a.runs) == Live(old(a.runs)) - {p - HEADER_SIZE} else a.runs == old(a.runs)
    ensures C.Quiet(c.lists, old(a.mem), a.mem) && C.Quiet([hand], old(a.mem), a.mem)
    ensures own ==> ElsewhereKept(old(a.mem), a.mem, ChunkSet(a.chunks))
    ensures !own ==> a.mem == old(a.mem)[p := head] && Abroad(abroad, p)
    ensures KeepsOwn(old(a.mem), a.mem, old(a.runs), a.runs, a.parked, a.parked, hand)
  {
    hide C.Cache.Valid, Allocator.Sound, Allocator.GrowthOk, Held, HeapOk, SoundSystem, KeepsOwn, UserWrites;
    hide C.ApartFromAll, C.Apart;
    hide C.Quiet, ElsewhereKept, PayloadsKept, Abroad, Release, Freed;
    ghost var m0, r0, cs, lists := a.mem, a.runs, ChunkSet(a.chunks), c.lists;
    SoundHeap(a);
    InHand(m0, r0, a.parked, cs, a.self, abroad, lists, [p] + hand, p);
    FewerInHand(m0, a.self, r0, a.parked, abroad, lists, hand, p);
    if own {
      OwnLive(m0, r0, cs, a.self, p);
      a.DeallocateBytes(p);
      SoundHeap(a);
      AfterFree(m0, a.mem, r0, a.parked, cs, a.self, abroad, lists, hand, p);
    } else {
      var m1 := a.mem[p := head];
      assert C.KeptButEntry(m0, m1, p);
      ForeignWritten(m0, m1, r0, a.parked, cs, a.self, abroad, lists, hand, p);
      a.Written(m1);
    }
    c.Elsewhere(a.mem);
  }

  // ---------- draining ----------

  /** The words of the entries that routing looks at. */
  ghost predicate StampsSame(m0: Memory, m1: Memory, s: seq<Addr>) {
    forall p :: p in s ==> p + C.STAMP in m0 && p + C.STAMP in m1 && m1[p + C.STAMP] == m0[p + C.STAMP]
  }

  ghost predicate AllStamps(m0: Memory, m1: Memory, lists: seq<seq<Addr>>) {
    forall i :: 0 <= i < |lists| ==> StampsSame(m0, m1, lists[i])
  }

  /** Exactly the runs of these payloads are no longer live. */
  ghost predicate LiveBut(r0: Runs, r1: Runs, freed: seq<Addr>) {
    forall h: Addr :: h in Live(r1) <==> h in Live(r0) && h + HEADER_SIZE !in freed
  }

  lemma LiveButMore(r0: Runs, r1: Runs, r2: Runs, freed: seq<Addr>, p: Addr)
    requires LiveBut(r0, r1, freed) && Live(r2) == Live(r1) - {p - HEADER_SIZE}
    ensures LiveBut(r0, r2, freed + [p])
  {
    hide Live;
    forall h: Addr
      ensures h in Live(r2) <==> h in Live(r0) && h + HEADER_SIZE !in freed + [p]
    {
    }
  }

  /** Runs that went to other threads are linked to what their stacks held. */
  ghost predicate LinkedHome(mem: Memory, abroad: set<Chunk>, heads: Addr -> Addr, s: seq<Addr>) {
    forall p :: p in s ==> Abroad(abroad, p) && p in mem && mem[p] == heads(p)
  }

  /** Outside the runner's chunks only the words of `s` change. */
  ghost predicate AwayKept(m0: Memory, m1: Memory, chunks: set<Chunk>, s: seq<Addr>) {
    forall a: Addr {:trigger a in m1} {:trigger m1[a]} :: a in m0 && Elsewhere(chunks, a) && a !in s ==>
      a in m1 && m1[a] == m0[a]
  }

  lemma AwayStart(mem: Memory, chunks: set<Chunk>)
    ensures AwayKept(mem, mem, chunks, [])
  {
  }

  lemma AwayTwice(m0: Memory, m1: Memory, m2: Memory, c1: set<Chunk>, c2: set<Chunk>, s: seq<Addr>, t: seq<Addr>)
    requires AwayKept(m0, m1, c1, s) && AwayKept(m1, m2, c2, t) && c1 <= c2
    ensures AwayKept(m0, m2, c2, s + t)
  {
    forall a: Addr | a in m0 && Elsewhere(c2, a) && a !in s + t
      ensures a in m2 && m2[a] == m0[a]
    {
      assert Elsewhere(c1, a);
    }
  }

  lemma AwayThen(m0: Memory, m1: Memory, m2: Memory, c1: set<Chunk>, c2: set<Chunk>, s: seq<Addr>)
    requires AwayKept(m0, m1, c1, []) && AwayKept(m1, m2, c2, s) && c1 <= c2
    ensures AwayKept(m0, m2, c2, s)
  {
    hide AwayKept;
    AwayTwice(m0, m1, m2, c1, c2, [], s);
    var none: seq<Addr> := [];
    assert none + s == s;
  }

  // A round of a drain writes nothing away from home, or one link.
  lemma AwayRound(m0: Memory, m1: Memory, m2: Memory, chunks: set<Chunk>, s: seq<Addr>, own: bool, p: Addr, head: Addr)
    requires AwayKept(m0, m1, chunks, s)
    requires if own then ElsewhereKept(m1, m2, chunks) else m2 == m1[p := head]
    ensures AwayKept(m0, m2, chunks, if own then s else s + [p])
  {
  }

  lemma AwayNothing(m0: Memory, m1: Memory, chunks: set<Chunk>)
    requires ElsewhereKept(m0, m1, chunks)
    ensures AwayKept(m0, m1, chunks, [])
  {
  }

  // Stamp and link of an own run lie at home.
  lemma AwayOwn(m0: Memory, m1: Memory, runs: Runs, parked: seq<Addr>, chunks: set<Chunk>, p: Addr)
    requires C.KeptButEntry(m0, m1, p) && Heap(runs, chunks) && OwnRun(runs, parked, p)
    ensures AwayKept(m0, m1, chunks, [])
  {
    hide Coalesced, Disjoint;
    RunInChunk(runs, chunks, p - HEADER_SIZE);
    assert RunOk(runs, chunks, p - HEADER_SIZE);
  }

  lemma AwayEntry(m0: Memory, m1: Memory, chunks: set<Chunk>, p: Addr)
    requires C.KeptButEntry(m0, m1, p)
    ensures AwayKept(m0, m1, chunks, [p, p + C.STAMP])
  {
  }

  /** One round of `_tls_drain_class`. */
  method DrainOne(c: C.Cache, a: Allocator, idx: nat, heads: Addr -> Addr, ghost abroad: set<Chunk>,
                  ghost hand: seq<Addr>) returns (p: Addr, own: bool)
    requires idx < C.CLASS_COUNT
    requires Joined(c, a, abroad, hand) && c.lists[idx] != []
    modifies a`mem, a`lists, a`runs, a.bins, a.mask, c`mem, c`lists, c.heads, c.counts
    ensures Joined(c, a, abroad, hand)
    ensures p == old(c.lists)[idx][0] && c.lists == old(c.lists)[idx := old(c.lists)[idx][1..]]
    ensures own <==> C.StampedBy(old(a.mem), p, a.self)
    ensures WordsOk(a.Where(), old(a.Knows()))
    ensures a.Knows() == if own then Perform(a.Where(), old(a.Knows()), Deallocate(p)).0 else old(a.Knows())
    ensures if own then Live(a.runs) == Live(old(a.runs)) - {p - HEADER_SIZE} else a.runs == old(a.runs)
    ensures C.Quiet(c.lists, old(a.mem), a.mem) && C.Quiet([hand], old(a.mem), a.mem)
    ensures if own then ElsewhereKept(old(a.mem), a.mem,
              ChunkSet(a.chunks)) else a.mem == old(a.mem)[p := heads(p)] && Abroad(abroad, p)
    ensures KeepsOwn(old(a.mem), a.mem, old(a.runs), a.runs, a.parked, a.parked, hand)
  {
    hide C.Cache.Valid, Allocator.Sound, Allocator.GrowthOk, Held, SoundSystem, KeepsOwn, C.ApartFromAll, C.Quiet;
    hide Perform, ElsewhereKept, Abroad;
    ghost var lists := c.lists;
    p := c.PopAny(idx);
    assert p in lists[idx];
    ListOut(a.mem, a.self, a.runs, a.parked, abroad, lists, hand, idx, p, lists[idx][1..]);
    own := a.mem[p + C.STAMP] == a.self;
    SendHome(c, a, p, own, heads(p), abroad, hand);
  }

  /** `_tls_drain_class`: takes out the first entries until `keep` remain, and sends each
      home before it looks at the next. Own runs are freed by the runner, in order; the
      others are linked to the head that `heads` says. */
  method Drain(c: C.Cache, a: Allocator, idx: nat, keep: nat, heads: Addr -> Addr, ghost abroad: set<Chunk>,
               ghost hand: seq<Addr>, ghost sent: seq<Addr>) returns (ghost direct: seq<Addr>, ghost remote: seq<Addr>)
    requires idx < C.CLASS_COUNT && LinkedHome(a.mem, abroad, heads, sent)
    requires Joined(c, a, abroad, hand)
    modifies a`mem, a`lists, a`runs, a.bins, a.mask, c`mem, c`lists, c.heads, c.counts
    ensures Joined(c, a, abroad, hand)
    ensures var s := old(c.lists)[idx];
            var n := if |s| > keep then |s| - keep else 0;
            && c.lists == old(c.lists)[idx := s[n..]]
            && direct == C.LocalOf(old(a.mem), s[..n], a.self) && remote == C.ForeignOf(old(a.mem), s[..n], a.self)
    ensures WordsOk(a.Where(), old(a.Knows())) && a.Knows() == After(a.Where(), old(a.Knows()), Frees(direct))
    ensures LiveBut(old(a.runs), a.runs, direct)
    ensures LinkedHome(a.mem, abroad, heads, sent + remote)
    ensures AllStamps(old(a.mem), a.mem, c.lists)
    ensures AwayKept(old(a.mem), a.mem, ChunkSet(a.chunks), remote)
    ensures C.Quiet([hand], old(a.mem), a.mem)
    ensures KeepsOwn(old(a.mem), a.mem, old(a.runs), a.runs, a.parked, a.parked, hand)
  {
    hide C.Cache.Valid, Allocator.Sound, Allocator.GrowthOk, Held, HeapOk, SoundSystem, KeepsOwn, C.ApartFromAll;
    hide C.Apart, C.Quiet, Perform, After, AwayKept;
    hide LinkedHome, StampsSame, C.LocalOf, C.ForeignOf, ElsewhereKept, Abroad, Live, LiveBut, AllStamps;
    ghost var m0, r0, core, lists0, s, n := a.mem, a.runs, a.Knows(), c.lists, c.lists[idx], 0;
    ghost var site := a.Where();
    SoundHeap(a);
    direct, remote := [], [];
    AwayStart(m0, ChunkSet(a.chunks));
    DrainStart(m0, r0, core.parked, a.self, site, core, hand);
    CountKnown(c, idx);
    assert s[..0] == [] && s[0..] == s && lists0[idx := s] == lists0 && sent + [] == sent;
    while c.counts[idx] > keep
      invariant Joined(c, a, abroad, hand) && a.Where() == site && a.parked == core.parked
      invariant 0 <= n <= |s| && c.counts[idx] == |s| - n && (n == 0 || |s| - n >= keep)
      invariant c.lists == lists0[idx := s[n..]]
      invariant direct == C.LocalOf(m0, s[..n], a.self) && remote == C.ForeignOf(m0, s[..n], a.self)
      invariant a.Knows() == After(site, core, Frees(direct))
      invariant LiveBut(r0, a.runs, direct)
      invariant LinkedHome(a.mem, abroad, heads, sent + remote)
      invariant AllStamps(m0, a.mem, c.lists)
      invariant AwayKept(m0, a.mem, ChunkSet(a.chunks), remote)
      invariant C.Quiet([hand], m0, a.mem)
      invariant KeepsOwn(m0, a.mem, r0, a.runs, core.parked, core.parked, hand)
      decreases |s| - n
    {
      ghost var m1, r1, lists1, direct1, remote1 := a.mem, a.runs, c.lists, direct, remote;
      assert s[n..][1..] == s[n + 1..] && lists1[idx] == s[n..];
      var node, own := DrainOne(c, a, idx, heads, abroad, hand);
      assert node in lists1[idx];
      C.RoutingOne(m0, s, n, a.self);
      AwayRound(m0, m1, a.mem, ChunkSet(a.chunks), remote, own, node, heads(node));
      StampAt(m0, m1, lists1, idx, node);
      if own {
        direct := direct + [node];
        AfterOneMore(site, core, Frees(direct1), Deallocate(node));
        assert Frees(direct) == Frees(direct1) + [Deallocate(node)];
        LiveButMore(r0, r1, a.runs, direct1, node);
        LinkedStays(m1, a.mem, ChunkSet(a.chunks), abroad, heads, sent + remote);
      } else {
        remote := remote + [node];
        LinkedMore(m1, a.mem, abroad, heads, sent + remote1, node);
        assert sent + remote1 + [node] == sent + remote;
      }
      StampsStay(m0, m1, a.mem, lists1, c.lists);
      QuietTwice([hand], m0, m1, a.mem);
      KeepsTwice(m0, m1, a.mem, r0, r1, a.runs, core.parked, core.parked, core.parked, hand);
      n := n + 1;
      CountKnown(c, idx);
    }
  }

  lemma DrainStart(mem: Memory, runs: Runs, parked: seq<Addr>, self: int, site: Site, c: Core, hand: seq<Addr>)
    requires WordsOk(site, c)
    ensures C.LocalOf(mem, [], self) == [] && C.ForeignOf(mem, [], self) == [] && c == After(site, c, Frees([]))
    ensures C.Quiet([hand], mem, mem)
    ensures LiveBut(runs, runs, []) && KeepsOwn(mem, mem, runs, runs, parked, parked, hand)
  {
    NothingWritten(mem, runs, parked, hand);
  }

  lemma QuietTwice(lists: seq<seq<Addr>>, m0: Memory, m1: Memory, m2: Memory)
    requires C.Quiet(lists, m0, m1) && C.Quiet(lists, m1, m2)
    ensures C.Quiet(lists, m0, m2)
  {
    forall i, q | 0 <= i < |lists| && q in lists[i]
      ensures C.SameEntry(m0, m2, q)
    {
      assert C.SameEntry(m0, m1, q) && C.SameEntry(m1, m2, q);
    }
  }

  lemma CountKnown(c: C.Cache, idx: nat)
    requires c.Valid() && idx < C.CLASS_COUNT
    ensures idx < c.counts.Length && idx < |c.lists| && c.counts[idx] == |c.lists[idx]|
    ensures AllStamps(c.mem, c.mem, c.lists)
  {
    c.CountIsLength(idx);
    forall i | 0 <= i < C.CLASS_COUNT
      ensures StampsSame(c.mem, c.mem, c.lists[i])
    {
      assert C.ClassOk(c.mem, c.heads[i], c.counts[i], c.lists[i], i, c.local);
      forall p | p in c.lists[i]
        ensures p + C.STAMP in c.mem
      {
        var j: nat :| j < |c.lists[i]| && c.lists[i][j] == p;
        assert C.EntryOk(c.mem, c.lists[i], j);
      }
    }
  }

  lemma StampAt(m0: Memory, m1: Memory, lists: seq<seq<Addr>>, idx: nat, p: Addr)
    requires idx < |lists| && AllStamps(m0, m1, lists) && p in lists[idx]
    ensures p + C.STAMP in m0 && p + C.STAMP in m1 && m1[p + C.STAMP] == m0[p + C.STAMP]
  {
  }

  lemma StampsStay(m0: Memory, m1: Memory, m2: Memory, l1: seq<seq<Addr>>, l2: seq<seq<Addr>>)
    requires |l1| == |l2| == C.CLASS_COUNT && AllStamps(m0, m1, l1)
    requires (forall i, p :: 0 <= i < C.CLASS_COUNT && p in l2[i] ==> p in l1[i]) && C.Quiet(l2, m1, m2)
    ensures AllStamps(m0, m2, l2)
  {
    forall i | 0 <= i < C.CLASS_COUNT
      ensures StampsSame(m0, m2, l2[i])
    {
      assert StampsSame(m0, m1, l1[i]);
      forall p | p in l2[i]
        ensures p + C.STAMP in m0 && p + C.STAMP in m2 && m2[p + C.STAMP] == m0[p + C.STAMP]
      {
        assert p in l1[i] && C.SameEntry(m1, m2, p);
      }
    }
  }

  lemma LinkedStays(m0: Memory, m1: Memory, chunks: set<Chunk>, abroad: set<Chunk>, heads: Addr -> Addr, s: seq<Addr>)
    requires LinkedHome(m0, abroad, heads, s) && ElsewhereKept(m0, m1, chunks) && ChunksApart(chunks, abroad)
    ensures LinkedHome(m1, abroad, heads, s)
  {
    forall p | p in s
      ensures p in m1 && m1[p] == heads(p)
    {
      AbroadKept(m0, m1, chunks, abroad, p);
    }
  }

  lemma LinkedMore(m0: Memory, m1: Memory, abroad: set<Chunk>, heads: Addr -> Addr, s: seq<Addr>, p: Addr)
    requires LinkedHome(m0, abroad, heads, s) && m1 == m0[p := heads(p)] && Abroad(abroad, p)
    ensures LinkedHome(m1, abroad, heads, s + [p])
  {
  }

  /** The runs of these payloads, last one first. */
  function LatestFirst(s: seq<Addr>): seq<Addr> {
    if s == [] then [] else [s[|s| - 1] - HEADER_SIZE] + LatestFirst(s[..|s| - 1])
  }

  /** The i-th run finds the one before it at the head, the first one the old head. */
  predicate FindsBefore(heads: Addr -> Addr, sent: seq<Addr>, head: Addr, i: nat)
    requires i < |sent|
  {
    heads(sent[i]) == if i == 0 then head else sent[i - 1]
  }

  /** Nothing that was parked before is lost: where each run was linked to what its owner's
      stack then held, the first one to the old head and every other one to the run before
      it, they now stand in front of the old stack, latest first. */
  lemma {:induction false} StackGrows(mem: Memory, abroad: set<Chunk>, heads: Addr -> Addr, sent: seq<Addr>, head: Addr,
                                      s: seq<Addr>)
    requires LinkedHome(mem, abroad, heads, sent) && Chain(mem, head, s)
    requires forall i: nat {:trigger FindsBefore(heads, sent, head, i)} :: i < |sent| ==>
              FindsBefore(heads, sent, head, i)
    ensures Chain(mem, if sent == [] then head else sent[|sent| - 1], LatestFirst(sent) + s)
  {
    if sent == [] {
      assert LatestFirst(sent) + s == s;
    } else {
      hide Chain;
      var n, earlier := |sent| - 1, sent[..|sent| - 1];
      LastLinked(mem, abroad, heads, sent, head);
      hide LinkedHome, FindsBefore;
      StackGrows(mem, abroad, heads, earlier, head, s);
      OneInFront(mem, if earlier == [] then head else earlier[n - 1], LatestFirst(earlier) + s, sent[n]);
      assert LatestFirst(sent) + s == [sent[n] - HEADER_SIZE] + (LatestFirst(earlier) + s);
    }
  }

  lemma LastLinked(mem: Memory, abroad: set<Chunk>, heads: Addr -> Addr, sent: seq<Addr>, head: Addr)
    requires LinkedHome(mem, abroad, heads, sent) && sent != []
    requires forall i: nat {:trigger FindsBefore(heads, sent, head, i)} :: i < |sent| ==>
              FindsBefore(heads, sent, head, i)
    ensures var n, earlier := |sent| - 1, sent[..|sent| - 1];
            && sent[n] in mem && mem[sent[n]] == (if earlier == [] then head else earlier[n - 1])
            && LinkedHome(mem, abroad, heads, earlier)
            && forall i: nat {:trigger FindsBefore(heads, earlier, head, i)} :: i < n ==>
                      FindsBefore(heads, earlier, head, i)
  {
    hide Abroad;
    var n, earlier := |sent| - 1, sent[..|sent| - 1];
    var p: Addr := sent[n];
    assert p in sent;
    assert FindsBefore(heads, sent, head, n);
    forall q: Addr | q in earlier
      ensures q in sent
    {
    }
    forall i: nat | i < n
      ensures FindsBefore(heads, earlier, head, i)
    {
      assert FindsBefore(heads, sent, head, i);
    }
  }

  /** ... and the old stack is still what it was: none of its runs has been written. */
  lemma OldStackStays(m0: Memory, m1: Memory, chunks: set<Chunk>, abroad: set<Chunk>, written: seq<Addr>, head: Addr,
                      s: seq<Addr>)
    requires Chain(m0, head, s) && AwayKept(m0, m1, chunks, written) && ChunksApart(chunks, abroad)
    requires forall h: Addr :: h in s ==> Abroad(abroad, h + HEADER_SIZE) && h + HEADER_SIZE !in written
    ensures Chain(m1, head, s)
  {
    forall j: nat | j < |s|
      ensures ParkLink(m1, s, j)
    {
      var h: Addr := s[j];
      assert ParkLink(m0, s, j) && h in s;
      AwayAtHome(chunks, abroad, h + HEADER_SIZE);
    }
  }

  lemma AwayAtHome(chunks: set<Chunk>, abroad: set<Chunk>, p: Addr)
    requires ChunksApart(chunks, abroad) && Abroad(abroad, p)
    ensures Elsewhere(chunks, p)
  {
    var d :| d in abroad && d.begin <= p - HEADER_SIZE && p - HEADER_SIZE + MIN_RUN <= d.begin + d.bytes;
    forall c | c in chunks
      ensures !(c.begin <= p < c.begin + c.bytes)
    {
      assert Apart(c, d);
    }
  }

  lemma OneInFront(mem: Memory, head: Addr, s: seq<Addr>, p: Addr)
    requires Chain(mem, head, s) && p in mem && mem[p] == head
    ensures Chain(mem, p, [p - HEADER_SIZE] + s)
  {
    var t := [p - HEADER_SIZE] + s;
    forall j: nat | j < |t|
      ensures ParkLink(mem, t, j)
    {
      if j > 0 {
        assert ParkLink(mem, s, j - 1);
      }
    }
  }

  lemma {:induction false} RoutingSame(m0: Memory, m1: Memory, s: seq<Addr>, self: int)
    requires StampsSame(m0, m1, s)
    ensures C.LocalOf(m1, s, self) == C.LocalOf(m0, s, self) && C.ForeignOf(m1, s, self) == C.ForeignOf(m0, s, self)
  {
    if s == [] {
    } else {
      var p: Addr := s[0];
      assert p in s;
      assert forall q: Addr :: q in s[1..] ==> q in s;
      RoutingSame(m0, m1, s[1..], self);
    }
  }

  lemma StampsTwice(m0: Memory, m1: Memory, m2: Memory, l1: seq<seq<Addr>>, l2: seq<seq<Addr>>)
    requires AllStamps(m0, m1, l1) && AllStamps(m1, m2, l2) && |l1| == |l2|
    requires forall i, p :: 0 <= i < |l1| && p in l2[i] ==> p in l1[i]
    ensures AllStamps(m0, m2, l2)
  {
    forall i | 0 <= i < |l2|
      ensures StampsSame(m0, m2, l2[i])
    {
      assert StampsSame(m0, m1, l1[i]) && StampsSame(m1, m2, l2[i]);
    }
  }

  lemma LiveButTwice(r0: Runs, r1: Runs, r2: Runs, d: seq<Addr>, e: seq<Addr>)
    requires LiveBut(r0, r1, d) && LiveBut(r1, r2, e)
    ensures LiveBut(r0, r2, d + e)
  {
    hide Live;
  }

  // What draining one class more adds.
  lemma DrainedMore(m0: Memory, m1: Memory, lists: seq<seq<Addr>>, i: nat, self: int, site: Site, c: Core, d: seq<Addr>,
                    e: seq<Addr>)
    requires i < |lists| && StampsSame(m0, m1, lists[i]) && WordsOk(site, c)
    ensures C.LocalOf(m0, C.Flatten(lists, i + 1), self) ==
              C.LocalOf(m0, C.Flatten(lists, i), self) + C.LocalOf(m1, lists[i], self)
    ensures C.ForeignOf(m0, C.Flatten(lists, i + 1), self) ==
              C.ForeignOf(m0, C.Flatten(lists, i), self) + C.ForeignOf(m1, lists[i], self)
    ensures After(site, After(site, c, Frees(d)), Frees(e)) == After(site, c, Frees(d + e))
  {
    RoutingSame(m0, m1, lists[i], self);
    C.RoutingAppend(m0, C.Flatten(lists, i), lists[i], self);
    hide After, C.LocalOf, C.ForeignOf;
    AfterThen(site, c, Frees(d), Frees(e));
    assert Frees(d + e) == Frees(d) + Frees(e);
  }

  /** `_tls_drain_all`: every class is drained in turn, and nothing is left. */
  method DrainAll(c: C.Cache, a: Allocator, heads: Addr -> Addr, ghost abroad: set<Chunk>, ghost hand: seq<Addr>)
    returns (ghost direct: seq<Addr>, ghost remote: seq<Addr>)
    requires Joined(c, a, abroad, hand)
    modifies a`mem, a`lists, a`runs, a.bins, a.mask, c`mem, c`lists, c.heads, c.counts
    ensures Joined(c, a, abroad, hand) && c.lists == C.Empties()
    ensures direct == C.LocalOf(old(a.mem), C.Flatten(old(c.lists), C.CLASS_COUNT), a.self)
    ensures remote == C.ForeignOf(old(a.mem), C.Flatten(old(c.lists), C.CLASS_COUNT), a.self)
    ensures WordsOk(a.Where(), old(a.Knows())) && a.Knows() == After(a.Where(), old(a.Knows()), Frees(direct))
    ensures LiveBut(old(a.runs), a.runs, direct) && LinkedHome(a.mem, abroad, heads, remote)
    ensures AwayKept(old(a.mem), a.mem, ChunkSet(a.chunks), remote)
    ensures KeepsOwn(old(a.mem), a.mem, old(a.runs), a.runs, a.parked, a.parked, hand)
  {
    hide C.Cache.Valid, Allocator.Sound, Allocator.GrowthOk, Held, HeapOk, SoundSystem, KeepsOwn, C.Quiet, After;
    hide LinkedHome, StampsSame, C.LocalOf, C.ForeignOf, LiveBut, AllStamps, AwayKept;
    ghost var m0, r0, core, lists0, site := a.mem, a.runs, a.Knows(), c.lists, a.Where();
    SoundHeap(a);
    direct, remote := [], [];
    AwayStart(m0, ChunkSet(a.chunks));
    DrainStart(m0, r0, core.parked, a.self, site, core, hand);
    NothingLinked(m0, abroad, heads);
    CountKnown(c, 0);
    for i := 0 to C.CLASS_COUNT
      invariant Joined(c, a, abroad, hand) && a.Where() == site && a.parked == core.parked
      invariant forall j :: 0 <= j < C.CLASS_COUNT ==> c.lists[j] == if j < i then [] else lists0[j]
      invariant direct == C.LocalOf(m0, C.Flatten(lists0, i), a.self)
      invariant remote == C.ForeignOf(m0, C.Flatten(lists0, i), a.self)
      invariant a.Knows() == After(site, core, Frees(direct))
      invariant LiveBut(r0, a.runs, direct) && LinkedHome(a.mem, abroad, heads, remote)
      invariant AllStamps(m0, a.mem, c.lists)
      invariant AwayKept(m0, a.mem, ChunkSet(a.chunks), remote)
      invariant KeepsOwn(m0, a.mem, r0, a.runs, core.parked, core.parked, hand)
    {
      ghost var m1, r1, s, lists1 := a.mem, a.runs, lists0[i], c.lists;
      var d, e := Drain(c, a, i, 0, heads, abroad, hand, remote);
      assert s[..|s|] == s && s[|s|..] == [];
      StampsOf(m0, m1, lists1, i);
      DrainedMore(m0, m1, lists0, i, a.self, site, core, direct, d);
      LiveButTwice(r0, r1, a.runs, direct, d);
      AwayTwice(m0, m1, a.mem, ChunkSet(a.chunks), ChunkSet(a.chunks), remote, e);
      StampsTwice(m0, m1, a.mem, lists1, c.lists);
      KeepsTwice(m0, m1, a.mem, r0, r1, a.runs, core.parked, core.parked, core.parked, hand);
      direct, remote := direct + d, remote + e;
    }
  }

  lemma NothingLinked(mem: Memory, abroad: set<Chunk>, heads: Addr -> Addr)
    ensures LinkedHome(mem, abroad, heads, [])
  {
  }

  lemma StampsOf(m0: Memory, m1: Memory, lists: seq<seq<Addr>>, i: nat)
    requires AllStamps(m0, m1, lists) && i < |lists|
    ensures StampsSame(m0, m1, lists[i])
  {
  }

  // ---------- allocation and deallocation through the cache ----------

  lemma StartsWith(site: Site, c: Core, bytes: nat)
    requires WordsOk(site, c) && 0 < bytes <= C.CUTOFF
    ensures c == Nth(site, c, bytes, 0) && QuietBefore(site, c, bytes, 0)
  {
  }

  lemma NthMore(site: Site, c: Core, bytes: nat, k: nat)
    requires WordsOk(site, c) && 0 < bytes <= C.CUTOFF
    ensures IsWord(bytes) && Nth(site, c, bytes, k + 1) == Allocated(site, Nth(site, c, bytes, k), bytes, 1).0
    ensures ThrowsAt(site, Nth(site, c, bytes, k), bytes, 0) <==> ThrowsAt(site, c, bytes, k)
  {
    hide Allocated, Throws;
  }

  /** Runs put by: each an allocated run of the runner, not parked, large enough, no two
      the same, and none the one that the caller gets. */
  ghost predicate Stocked(runs: Runs, parked: seq<Addr>, s: seq<Addr>, raw: Addr, bytes: nat) {
    && (forall p :: p in s ==> OwnRun(runs, parked, p) && bytes <= runs[p - HEADER_SIZE].size - HEADER_SIZE && p != raw)
    && Distinct(s)
  }

  ghost predicate AllOwned(mem: Memory, self: int, s: seq<Addr>) {
    forall p :: p in s ==> p + C.OWNER_WORD in mem && mem[p + C.OWNER_WORD] == self
  }

  lemma OwnedStays(m0: Memory, m1: Memory, self: int, lists: seq<seq<Addr>>, idx: nat, s: seq<Addr>)
    requires C.Quiet(lists, m0, m1) && idx < |lists| && AllOwned(m0, self, s) && forall p :: p in s ==> p in lists[idx]
    ensures AllOwned(m1, self, s)
  {
    forall p | p in s
      ensures p + C.OWNER_WORD in m1 && m1[p + C.OWNER_WORD] == self
    {
      assert p in lists[idx] && C.SameEntry(m0, m1, p);
    }
  }

  lemma OwnedMore(mem: Memory, head: Addr, self: int, s: seq<Addr>, p: Addr)
    requires AllOwned(mem, self, s) && p + C.OWNER_WORD in mem && mem[p + C.OWNER_WORD] == self
    requires forall q :: q in s ==> C.Apart(p, q)
    ensures AllOwned(C.Pushed(mem, head, p), self, [p] + s)
  {
    forall q | q in [p] + s
      ensures q + C.OWNER_WORD in mem && C.Pushed(mem, head, p)[q + C.OWNER_WORD] == self
    {
      assert q == p || q in s;
    }
  }

  // The own entries at the front of a class are runs put by.
  lemma FrontIsStocked(c: C.Cache, a: Allocator, abroad: set<Chunk>, hand: seq<Addr>, idx: nat, s: seq<Addr>,
                       rest: seq<Addr>, raw: Addr, bytes: nat)
    requires Joined(c, a, abroad, [raw] + hand) && idx < C.CLASS_COUNT && c.lists[idx] == s + rest
    requires AllOwned(a.mem, a.self, s) && bytes <= C.ClassBytes(idx)
    ensures Stocked(a.runs, a.parked, s, raw, bytes)
  {
    hide Allocator.Sound, Allocator.GrowthOk, HeapOk, C.Cache.Valid, SoundSystem, EntryAt;
    SoundHeap(a);
    ClassesApartIn(c);
    ClassRoom(c, idx);
    assert raw in [raw] + hand;
    forall p | p in s
      ensures OwnRun(a.runs, a.parked, p) && bytes <= a.runs[p - HEADER_SIZE].size - HEADER_SIZE && p != raw
    {
      assert p in c.lists[idx];
      assert AllAt(a.mem, a.self, a.runs, a.parked, abroad, c.lists[idx]);
      EntryIsOwn(a.mem, a.runs, a.parked, ChunkSet(a.chunks), a.self, abroad, p);
      assert C.Apart(raw, p);
    }
    forall i, j | 0 <= i < j < |s|
      ensures s[i] != s[j]
    {
      assert c.lists[idx][i] == s[i] && c.lists[idx][j] == s[j] && C.Apart(c.lists[idx][i], c.lists[idx][j]);
    }
  }

  lemma EntryIsOwn(mem: Memory, runs: Runs, parked: seq<Addr>, chunks: set<Chunk>, self: int, abroad: set<Chunk>,
                   p: Addr)
    requires HeapOk(mem, runs, chunks, self) && EntryAt(mem, self, runs, parked, abroad, p)
    requires mem[p + C.OWNER_WORD] == self
    ensures OwnRun(runs, parked, p) && p - HEADER_SIZE in mem
    ensures C.PayloadAt(mem, p) == runs[p - HEADER_SIZE].size - HEADER_SIZE
  {
    hide HeapOk;
    LiveRun(mem, runs, chunks, self, p - HEADER_SIZE);
  }

  lemma ClassRoom(c: C.Cache, idx: nat)
    requires c.Valid() && idx < C.CLASS_COUNT
    ensures forall p :: p in c.lists[idx] ==> C.Roomy(c.mem, p, idx)
  {
    assert C.ClassOk(c.mem, c.heads[idx], c.counts[idx], c.lists[idx], idx, c.local);
  }

  /** The refill: up to three more runs are put by; it stops at the first that the runner
      cannot have. */
  method StockUp(c: C.Cache, a: Allocator, idx: nat, raw: Addr, ghost site: Site, ghost core: Core,
                 ghost abroad: set<Chunk>, ghost hand: seq<Addr>) returns (stopped: bool, ghost extras: seq<Addr>)
    requires idx < C.CLASS_COUNT && a.canGrow && C.ClassBytes(idx) <= C.CUTOFF && |c.lists| == C.CLASS_COUNT
    requires Joined(c, a, abroad, [raw] + hand) && |c.lists[idx]| <= C.HIGH_WATERMARK
    requires WordsOk(site, core) && site == a.Where() && a.Knows() == Nth(site, core, C.ClassBytes(idx), 1)
    requires QuietBefore(site, core, C.ClassBytes(idx), 1)
    modifies a, a.bins, a.mask, c`mem, c`lists, c.heads, c.counts
    ensures Joined(c, a, abroad, [raw] + hand) && a.Where() == site
    ensures c.lists == old(c.lists)[idx := extras + old(c.lists)[idx]]
    ensures |extras| <= 3 && (!stopped ==> |extras| == 3)
    ensures ChunkSet(old(a.chunks)) <= ChunkSet(a.chunks) && AwayKept(old(a.mem), a.mem, ChunkSet(a.chunks), [])
    ensures stopped <==> FirstThrowFrom(site, core, C.ClassBytes(idx), 1)
    ensures !FirstThrowFrom(site, core, C.ClassBytes(idx), 0) <==> !stopped
    ensures a.Knows() == Nth(site, core, C.ClassBytes(idx), 1 + |extras| + (if stopped then 1 else 0))
    ensures Stocked(a.runs, a.parked, extras, raw, C.ClassBytes(idx))
    ensures KeepsOwn(old(a.mem), a.mem, old(a.runs), a.runs, old(a.parked), a.parked, [raw] + hand)
  {
    hide C.Cache.Valid, Allocator.Sound, Allocator.GrowthOk, Held, HeapOk, SoundSystem, KeepsOwn, C.Quiet, ThrowsAt;
    hide FirstThrowFrom, QuietBefore, AwayKept, ElsewhereKept, ChunkSet;
    hide Nth, Stocked, AllOwned, C.Usable, Allocated, C.Roomy;
    ghost var m0, r0, q0, lists0, bytes := a.mem, a.runs, a.parked, c.lists, C.ClassBytes(idx);
    extras := [];
    NothingWritten(m0, r0, q0, [raw] + hand);
    NoneOwnedYet(m0, a.self);
    AwayStart(m0, ChunkSet(a.chunks));
    ghost var cs0 := ChunkSet(a.chunks);
    stopped := false;
    assert extras + lists0[idx] == lists0[idx] && lists0[idx := lists0[idx]] == lists0;
    for i := 1 to C.REFILL_BATCH
      invariant Joined(c, a, abroad, [raw] + hand) && a.Where() == site && a.canGrow
      invariant |extras| == i - 1 && c.lists == lists0[idx := extras + lists0[idx]] && AllOwned(a.mem, a.self, extras)
      invariant a.Knows() == Nth(site, core, bytes, i) && QuietBefore(site, core, bytes, i)
      invariant cs0 <= ChunkSet(a.chunks) && AwayKept(m0, a.mem, ChunkSet(a.chunks), [])
      invariant KeepsOwn(m0, a.mem, r0, a.runs, q0, a.parked, [raw] + hand)
    {
      ghost var m1, r1, q1, cs1 := a.mem, a.runs, a.parked, ChunkSet(a.chunks);
      NthMore(site, core, bytes, i);
      var extra := TakeOne(c, a, C.ClassBytes(idx), abroad, [raw] + hand);
      KeepsTwice(m0, m1, a.mem, r0, r1, a.runs, q0, q1, a.parked, [raw] + hand);
      AwayMore(m0, m1, a.mem, cs1, ChunkSet(a.chunks));
      assert forall p :: p in extras ==> p in c.lists[idx];
      OwnedStays(m1, a.mem, a.self, c.lists, idx, extras);
      if extra == BadAlloc {
        FirstThrowIs(site, core, bytes, i);
        stopped := true;
        FrontIsStocked(c, a, abroad, hand, idx, extras, lists0[idx], raw, bytes);
        return;
      }
      QuietMore(site, core, bytes, i);
      ghost var m2, r2, lists1 := a.mem, a.runs, c.lists;
      FreshFits(c, a, abroad, [raw] + hand, extra.p, idx);
      assert forall q :: q in extras ==> q in c.lists[idx] && C.Apart(extra.p, q);
      OwnedMore(m2, C.HeadOf(c.lists[idx]), a.self, extras, extra.p);
      assert [extra.p] + (extras + lists0[idx]) == [extra.p] + extras + lists0[idx];
      PutBy(c, a, idx, extra.p, abroad, [raw] + hand);
      StampedAtHome(m0, m2, a, C.HeadOf(lists1[idx]), extra.p);
      KeepsTwice(m0, m2, a.mem, r0, r2, a.runs, q0, a.parked, a.parked, [raw] + hand);
      extras := [extra.p] + extras;
    }
    NoThrow(site, core, bytes);
    FrontIsStocked(c, a, abroad, hand, idx, extras, lists0[idx], raw, bytes);
  }

  lemma AwayMore(m0: Memory, m1: Memory, m2: Memory, c1: set<Chunk>, c2: set<Chunk>)
    requires AwayKept(m0, m1, c1, []) && ElsewhereKept(m1, m2, c2) && c1 <= c2
    ensures AwayKept(m0, m2, c2, [])
  {
    hide AwayKept, ElsewhereKept;
    AwayNothing(m1, m2, c2);
    AwayThen(m0, m1, m2, c1, c2, []);
  }

  lemma StampedAtHome(m0: Memory, m1: Memory, a: Allocator, head: Addr, p: Addr)
    requires a.Valid() && OwnRun(a.runs, a.parked, p) && p + C.OWNER_WORD in m1 && a.mem == C.Pushed(m1, head, p)
    requires AwayKept(m0, m1, ChunkSet(a.chunks), [])
    ensures AwayKept(m0, a.mem, ChunkSet(a.chunks), [])
  {
    SoundHeap(a);
    hide AwayKept, Allocator.Sound, Allocator.GrowthOk, MemOk, Heap;
    AwayOwn(m1, a.mem, a.runs, a.parked, ChunkSet(a.chunks), p);
    AwayThen(m0, m1, a.mem, ChunkSet(a.chunks), ChunkSet(a.chunks), []);
  }

  lemma NoneOwnedYet(mem: Memory, self: int)
    ensures AllOwned(mem, self, [])
  {
  }

  lemma QuietMore(site: Site, c: Core, bytes: nat, k: nat)
    requires WordsOk(site, c) && 0 < bytes <= C.CUTOFF && QuietBefore(site, c, bytes, k) && !ThrowsAt(site, c, bytes, k)
    ensures QuietBefore(site, c, bytes, k + 1)
  {
    hide ThrowsAt;
  }

  // What a fresh run is good for.
  lemma FreshFits(c: C.Cache, a: Allocator, abroad: set<Chunk>, hand: seq<Addr>, p: Addr, idx: nat)
    requires Joined(c, a, abroad, [p] + hand) && OwnRun(a.runs, a.parked, p)
    requires C.ClassBytes(idx) <= a.runs[p - HEADER_SIZE].size - HEADER_SIZE
    ensures p > 0 && C.Roomy(a.mem, p, idx) && p + C.OWNER_WORD in a.mem && a.mem[p + C.OWNER_WORD] == a.self != 0
    ensures C.ApartFromAll(c.lists, p)
  {
    hide C.Cache.Valid, Allocator.Sound, Allocator.GrowthOk, SoundSystem, HeapOk, EntryAt;
    SoundHeap(a);
    LiveRun(a.mem, a.runs, ChunkSet(a.chunks), a.self, p - HEADER_SIZE);
    assert p in [p] + hand;
  }

  /** What the runner knows after everything cached was drained and one more allocation
      was tried, and the answer to that one. */
  ghost function Retried(site: Site, c: Core, bytes: nat, direct: seq<Addr>): (Core, Outcome)
    requires WordsOk(site, c) && IsWord(bytes)
  {
    Allocated(site, After(site, Allocated(site, c, bytes, 1).0, Frees(direct)), bytes, 1)
  }

  /** What an allocation through the cache gives: the answer, the runs that went to other
      threads and those that were freed on the way, the run that was granted and lost, and
      those put by, latest first. */
  datatype Taking = Taking(out: Outcome, direct: seq<Addr>, remote: seq<Addr>, lost: Addr, extras: seq<Addr>)

  /** A runner that may grow answers with a run or an exception, which comes exactly if one
      of up to four allocations throws; if that is not the first of them, the run already
      granted is lost. The other runs were put by. */
  ghost predicate GrowingTakes(site: Site, c: Core, c': Core, lists: seq<seq<Addr>>, lists': seq<seq<Addr>>, idx: nat,
                               size: nat, r: Taking)
    requires WordsOk(site, c) && 0 < size <= C.CUTOFF && idx < |lists|
  {
    && IsWord(size) && r.out != Null && r.direct == r.remote == []
    && (r.out == BadAlloc <==> FirstThrowFrom(site, c, size, 0))
    && (r.lost != 0 <==> FirstThrowFrom(site, c, size, 1))
    && c' == Nth(site, c, size, 1 + |r.extras| + (if r.lost != 0 then 1 else 0))
    && lists' == lists[idx := r.extras + lists[idx]]
    && |r.extras| <= 3 && (r.out.Got? ==> |r.extras| == 3)
    && Stocked(c'.runs, c'.parked, r.extras, if r.out.Got? then r.out.p else r.lost, size)
  }

  /** A fixed runner answers for itself; if it answers null, the whole cache is drained and
      it is asked once more. */
  ghost predicate FixedTakes(site: Site, c: Core, c': Core, mem: Memory, self: int, lists: seq<seq<Addr>>,
                             lists': seq<seq<Addr>>, size: nat, r: Taking)
    requires WordsOk(site, c) && |lists| == C.CLASS_COUNT
  {
    && IsWord(size) && r.lost == 0 && r.extras == []
    && var first := Allocated(site, c, size, 1);
       if first.1 != Null then (c', r.out) == first && lists' == lists && r.direct == r.remote == []
       else
         && (c', r.out) == Retried(site, c, size, r.direct) && lists' == C.Empties()
         && r.direct == C.LocalOf(mem, C.Flatten(lists, C.CLASS_COUNT), self)
         && r.remote == C.ForeignOf(mem, C.Flatten(lists, C.CLASS_COUNT), self)
  }

  /** The run that the thread has afterwards, if any. */
  function GrantedRuns(r: Taking): seq<Addr> {
    if r.out.Got? then [r.out.p] else if r.lost != 0 then [r.lost] else []
  }

  lemma StillOwn(m0: Memory, m1: Memory, r0: Runs, r1: Runs, q0: seq<Addr>, q1: seq<Addr>, p: Addr, s: seq<Addr>)
    requires KeepsOwn(m0, m1, r0, r1, q0, q1, s) && p in s && OwnRun(r0, q0, p)
    ensures OwnRun(r1, q1, p) && r1[p - HEADER_SIZE].size == r0[p - HEADER_SIZE].size
  {
    assert KeepsRun(m0, m1, r0, r1, q1, p - HEADER_SIZE);
  }

  lemma NoneStocked(runs: Runs, parked: seq<Addr>, raw: Addr, bytes: nat)
    ensures Stocked(runs, parked, [], raw, bytes)
  {
  }

  lemma {:induction false} RoutingAllSame(m0: Memory, m1: Memory, lists: seq<seq<Addr>>, n: nat, self: int)
    requires AllStamps(m0, m1, lists) && n <= |lists|
    ensures C.LocalOf(m1, C.Flatten(lists, n), self) == C.LocalOf(m0, C.Flatten(lists, n), self)
    ensures C.ForeignOf(m1, C.Flatten(lists, n), self) == C.ForeignOf(m0, C.Flatten(lists, n), self)
  {
    if n == 0 {
    } else {
      RoutingAllSame(m0, m1, lists, n - 1, self);
      StampsOf(m0, m1, lists, n - 1);
      RoutingSame(m0, m1, lists[n - 1], self);
      C.RoutingAppend(m0, C.Flatten(lists, n - 1), lists[n - 1], self);
      C.RoutingAppend(m1, C.Flatten(lists, n - 1), lists[n - 1], self);
    }
  }

  // Everything cached goes home, and the runner is asked once more.
  method Retry(c: C.Cache, a: Allocator, bytes: nat, heads: Addr -> Addr, ghost abroad: set<Chunk>,
               ghost hand: seq<Addr>) returns (out: Outcome, ghost direct: seq<Addr>, ghost remote: seq<Addr>)
    requires 0 < bytes <= C.CUTOFF
    requires Joined(c, a, abroad, hand)
    modifies a, a.bins, a.mask, c`mem, c`lists, c.heads, c.counts
    ensures Joined(c, a, abroad, if out.Got? then [out.p] + hand else hand) && c.lists == C.Empties()
    ensures direct == C.LocalOf(old(a.mem), C.Flatten(old(c.lists), C.CLASS_COUNT), a.self)
    ensures remote == C.ForeignOf(old(a.mem), C.Flatten(old(c.lists), C.CLASS_COUNT), a.self)
    ensures IsWord(bytes) && WordsOk(a.Where(), old(a.Knows()))
    ensures (a.Knows(), out) == Allocated(a.Where(), After(a.Where(), old(a.Knows()), Frees(direct)), bytes, 1)
    ensures out.Got? ==> OwnRun(a.runs, a.parked, out.p) && bytes <= a.runs[out.p - HEADER_SIZE].size - HEADER_SIZE
    ensures LinkedHome(a.mem, abroad, heads, remote)
    ensures ChunkSet(old(a.chunks)) <= ChunkSet(a.chunks) && AwayKept(old(a.mem), a.mem, ChunkSet(a.chunks), remote)
    ensures KeepsOwn(old(a.mem), a.mem, old(a.runs), a.runs, old(a.parked), a.parked, hand)
  {
    hide C.Cache.Valid, Allocator.Sound, Allocator.GrowthOk, Held, HeapOk, SoundSystem, KeepsOwn, C.Quiet, ThrowsAt;
    hide C.Usable, Allocated, C.LocalOf, C.ForeignOf, C.Flatten, After, LinkedHome, LiveBut, ElsewhereKept, AwayKept;
    ghost var m0, r0, q0 := a.mem, a.runs, a.parked;
    ClassesServable(bytes);
    direct, remote := DrainAll(c, a, heads, abroad, hand);
    ghost var m1, r1, q1, cs1 := a.mem, a.runs, a.parked, ChunkSet(a.chunks);
    out := TakeOne(c, a, bytes, abroad, hand);
    LinkedStays(m1, a.mem, ChunkSet(a.chunks), abroad, heads, remote);
    AwayNothing(m1, a.mem, ChunkSet(a.chunks));
    AwayTwice(m0, m1, a.mem, cs1, ChunkSet(a.chunks), remote, []);
    assert remote + [] == remote;
    KeepsTwice(m0, m1, a.mem, r0, r1, a.runs, q0, q1, a.parked, hand);
  }

  // The slow path: no own entry in the class.
  method TakeFresh(c: C.Cache, a: Allocator, idx: nat, heads: Addr -> Addr, ghost abroad: set<Chunk>,
                   ghost hand: seq<Addr>) returns (out: Outcome, ghost r: Taking)
    requires idx < C.CLASS_COUNT && 0 < C.ClassBytes(idx) <= C.CUTOFF
    requires Joined(c, a, abroad, hand) && |c.lists[idx]| <= C.HIGH_WATERMARK
    modifies a, a.bins, a.mask, c`mem, c`lists, c.heads, c.counts
    ensures Joined(c, a, abroad, GrantedRuns(r) + hand) && r.out == out
    ensures WordsOk(a.Where(), old(a.Knows())) && |old(c.lists)| == C.CLASS_COUNT
    ensures a.canGrow ==> GrowingTakes(a.Where(), old(a.Knows()), a.Knows(), old(c.lists), c.lists, idx,
                C.ClassBytes(idx), r)
    ensures !a.canGrow ==> FixedTakes(a.Where(), old(a.Knows()), a.Knows(), old(a.mem), a.self, old(c.lists), c.lists,
                C.ClassBytes(idx), r)
    ensures forall p :: p in GrantedRuns(r) ==>
              OwnRun(a.runs, a.parked, p) && C.ClassBytes(idx) <= a.runs[p - HEADER_SIZE].size - HEADER_SIZE
    ensures LinkedHome(a.mem, abroad, heads, r.remote)
    ensures AwayKept(old(a.mem), a.mem, ChunkSet(a.chunks), r.remote)
    ensures KeepsOwn(old(a.mem), a.mem, old(a.runs), a.runs, old(a.parked), a.parked, hand)
  {
    hide C.Cache.Valid, Allocator.Sound, Allocator.GrowthOk, Held, HeapOk, SoundSystem, KeepsOwn, C.Quiet, ThrowsAt;
    hide FirstThrowFrom, QuietBefore, AwayKept, ChunkSet;
    hide Nth, Stocked, C.Usable, Allocated, C.Roomy, C.LocalOf, C.ForeignOf, C.Flatten, After, LinkedHome, LiveBut;
    hide ElsewhereKept, AllStamps, Separate, C.ApartFromAll, GrowingTakes, FixedTakes;
    ghost var m0, r0, q0, lists0, site, core := a.mem, a.runs, a.parked, c.lists, a.Where(), a.Knows();
    SoundHeap(a);
    ClassesServable(C.ClassBytes(idx));
    NthMore(site, core, C.ClassBytes(idx), 0);
    StartsWith(site, core, C.ClassBytes(idx));
    CountKnown(c, 0);
    assert [] + hand == hand && |lists0| == C.CLASS_COUNT;
    out := TakeOne(c, a, C.ClassBytes(idx), abroad, hand);
    ghost var raw, m1, r1, q1 := if out.Got? then out.p else 0, a.mem, a.runs, a.parked;
    ghost var cs1 := ChunkSet(a.chunks);
    AwayNothing(m0, m1, cs1);
    r := Taking(out, [], [], 0, []);
    if out == Null {
      ghost var direct, remote;
      StampsStay(m0, m0, m1, lists0, lists0);
      RoutingAllSame(m0, m1, lists0, C.CLASS_COUNT, a.self);
      out, direct, remote := Retry(c, a, C.ClassBytes(idx), heads, abroad, hand);
      r := Taking(out, direct, remote, 0, []);
      KeepsTwice(m0, m1, a.mem, r0, r1, a.runs, q0, q1, a.parked, hand);
      AwayThen(m0, m1, a.mem, cs1, ChunkSet(a.chunks), remote);
      FixedRetried(site, core, a.Knows(), m0, a.self, lists0, c.lists, C.ClassBytes(idx), r);
    } else if a.canGrow && out.Got? {
      FreshFits(c, a, abroad, hand, raw, idx);
      QuietMore(site, core, C.ClassBytes(idx), 0);
      var stopped;
      ghost var extras;
      stopped, extras := StockUp(c, a, idx, out.p, site, core, abroad, hand);
      StillOwn(m1, a.mem, r1, a.runs, q1, a.parked, raw, [raw] + hand);
      KeepsFewer(m1, a.mem, r1, a.runs, q1, a.parked, [raw] + hand, hand);
      KeepsTwice(m0, m1, a.mem, r0, r1, a.runs, q0, q1, a.parked, hand);
      if stopped {
        out := BadAlloc;
      }
      r := Taking(out, [], [], if stopped then raw else 0, extras);
      NothingLinked(a.mem, abroad, heads);
      AwayThen(m0, m1, a.mem, cs1, ChunkSet(a.chunks), []);
      GrowingStocked(site, core, a.Knows(), lists0, c.lists, idx, C.ClassBytes(idx), raw, stopped, extras);
    } else {
      NothingLinked(a.mem, abroad, heads);
      AtOnce(site, core, a.Knows(), m0, a.self, lists0, idx, C.ClassBytes(idx), out);
    }
  }

  // The first answer is the last one.
  lemma AtOnce(site: Site, c: Core, c': Core, mem: Memory, self: int, lists: seq<seq<Addr>>, idx: nat, size: nat,
               out: Outcome)
    requires WordsOk(site, c) && 0 < size <= C.CUTOFF && idx < |lists| == C.CLASS_COUNT && IsWord(size)
    requires (c', out) == Allocated(site, c, size, 1) && out != Null && c' == Nth(site, c, size, 1)
    requires QuietBefore(site, c, size, 0) && (out == BadAlloc <==> ThrowsAt(site, c, size, 0))
    ensures FixedTakes(site, c, c', mem, self, lists, lists, size, Taking(out, [], [], 0, []))
    ensures out == BadAlloc ==> GrowingTakes(site, c, c', lists, lists, idx, size, Taking(out, [], [], 0, []))
  {
    hide Allocated, ThrowsAt, FirstThrowFrom, Nth, QuietBefore, Stocked;
    if out == BadAlloc {
      FirstThrowIs(site, c, size, 0);
      NoneStocked(c'.runs, c'.parked, 0, size);
      var none: seq<Addr> := [];
      assert none + lists[idx] == lists[idx] && lists[idx := lists[idx]] == lists;
    }
  }

  lemma GrowingStocked(site: Site, c: Core, c': Core, lists: seq<seq<Addr>>, lists': seq<seq<Addr>>, idx: nat,
                       size: nat, raw: Addr, stopped: bool, extras: seq<Addr>)
    requires WordsOk(site, c) && 0 < size <= C.CUTOFF && idx < |lists| && IsWord(size) && raw != 0
    requires lists' == lists[idx := extras + lists[idx]]
    requires |extras| <= 3 && (!stopped ==> |extras| == 3)
    requires (stopped <==> FirstThrowFrom(site, c, size, 1)) && (!FirstThrowFrom(site, c, size, 0) <==> !stopped)
    requires c' == Nth(site, c, size, 1 + |extras| + (if stopped then 1 else 0))
    requires Stocked(c'.runs, c'.parked, extras, raw, size)
    ensures GrowingTakes(site, c, c', lists, lists', idx, size,
              Taking(if stopped then BadAlloc else Got(raw), [], [], if stopped then raw else 0, extras))
  {
    hide FirstThrowFrom, Nth, Stocked, Allocated;
    var r := Taking(if stopped then BadAlloc else Got(raw), [], [], if stopped then raw else 0, extras);
    assert (if r.lost != 0 then 1 else 0) == if stopped then 1 else 0;
    assert (if r.out.Got? then r.out.p else r.lost) == raw;
    assert GrowingTakes(site, c, c', lists, lists', idx, size, r);
  }

  lemma FixedRetried(site: Site, c: Core, c': Core, mem: Memory, self: int, lists: seq<seq<Addr>>,
                     lists': seq<seq<Addr>>, size: nat, r: Taking)
    requires WordsOk(site, c) && |lists| == C.CLASS_COUNT && IsWord(size) && r.lost == 0 && r.extras == []
    requires Allocated(site, c, size, 1).1 == Null && (c', r.out) == Retried(site, c, size, r.direct)
    requires lists' == C.Empties()
    requires r.direct == C.LocalOf(mem, C.Flatten(lists, C.CLASS_COUNT), self)
    requires r.remote == C.ForeignOf(mem, C.Flatten(lists, C.CLASS_COUNT), self)
    ensures FixedTakes(site, c, c', mem, self, lists, lists', size, r)
  {
    hide Allocated, Retried, C.LocalOf, C.ForeignOf, C.Flatten;
  }

  /** `_allocate_from_tls_run_cache`: an own entry of the class if there is one, the first;
      else a run from the runner, who is asked once more after the whole cache was drained
      if the answer is null; and if it may grow, up to three more runs are put by. An
      exception of one of those loses the run already granted: it stays allocated, is in
      no list, and is not returned. `heads` are what the stacks of other threads hold. */
  method AllocateFrom(c: C.Cache, a: Allocator, bytes: nat, heads: Addr -> Addr, ghost abroad: set<Chunk>,
                      ghost hand: seq<Addr>) returns (out: Outcome, ghost r: Taking)
    requires 0 < bytes <= C.CUTOFF
    requires Joined(c, a, abroad, hand)
    modifies a, a.bins, a.mask, c`mem, c`lists, c.heads, c.counts
    ensures Joined(c, a, abroad, GrantedRuns(r) + hand) && r.out == out
    ensures forall p :: p in GrantedRuns(r) ==>
              OwnRun(a.runs, a.parked, p) && bytes <= a.runs[p - HEADER_SIZE].size - HEADER_SIZE
    ensures 0 <= C.ClassIndex(bytes) < C.CLASS_COUNT == |old(c.lists)|
    ensures 0 < C.ClassBytes(C.ClassIndex(bytes)) <= C.CUTOFF
    ensures WordsOk(a.Where(), old(a.Knows()))
    ensures var idx := C.ClassIndex(bytes);
            forall k: int :: C.IsFirstOwned(old(a.mem), old(c.lists)[idx], k, a.self) ==>
              && r == Taking(Got(old(c.lists)[idx][k]), [], [], 0, []) && a.Knows() == old(a.Knows())
              && c.lists == old(c.lists)[idx := C.Without(old(c.lists)[idx], k)]
              && a.mem == C.Unhooked(old(a.mem), old(c.lists)[idx], k)
    ensures var idx, size := C.ClassIndex(bytes), C.ClassBytes(C.ClassIndex(bytes));
            C.NoneOwned(old(a.mem), old(c.lists)[idx], a.self) ==>
              && LinkedHome(a.mem, abroad, heads, r.remote)
              && AwayKept(old(a.mem), a.mem, ChunkSet(a.chunks), r.remote)
              && if a.canGrow then GrowingTakes(a.Where(), old(a.Knows()), a.Knows(), old(c.lists), c.lists, idx, size,
                     r)
                 else FixedTakes(a.Where(), old(a.Knows()), a.Knows(), old(a.mem), a.self, old(c.lists), c.lists, size,
                     r)
    ensures KeepsOwn(old(a.mem), a.mem, old(a.runs), a.runs, old(a.parked), a.parked, hand)
  {
    hide C.Cache.Valid, Allocator.Sound, Allocator.GrowthOk, Held, HeapOk, SoundSystem, KeepsOwn, GrowingTakes;
    hide FixedTakes, LinkedHome, Separate, AwayKept;
    hide C.NoneOwned, C.IsFirstOwned, C.Unhooked, OwnRun;
    C.ClassFitsPayload(bytes, C.CUTOFF);
    var idx := C.ClassIndex(bytes);
    ghost var m0, r0, q0, lists0 := a.mem, a.runs, a.parked, c.lists;
    SoundHeap(a);
    var p: Addr;
    ghost var k: int;
    p, k := PopOwn(c, a, idx, abroad, hand);
    if p != 0 {
      C.OnlyFirst(m0, lists0[idx], k, a.self);
      out := Got(p);
      r := Taking(out, [], [], 0, []);
      return;
    }
    C.NoFirst(m0, lists0[idx], a.self);
    c.NoOwnEntry(idx);
    ghost var m1, r1, q1 := a.mem, a.runs, a.parked;
    out, r := TakeFresh(c, a, idx, heads, abroad, hand);
    KeepsTwice(m0, m1, a.mem, r0, r1, a.runs, q0, q1, a.parked, hand);
  }

  /** `_deallocate_to_tls_run_cache`: a class at its high watermark is first drained to the
      low one; then the run enters, whoever owns it, under any count its payload holds. */
  method DeallocateTo(c: C.Cache, a: Allocator, p: Addr, bytes: nat, heads: Addr -> Addr, ghost abroad: set<Chunk>,
                      ghost hand: seq<Addr>) returns (ghost direct: seq<Addr>, ghost remote: seq<Addr>)
    requires 0 < bytes <= C.CUTOFF && p > 0
    requires Joined(c, a, abroad, [p] + hand)
    requires p - HEADER_SIZE in a.mem && bytes <= C.PayloadAt(a.mem, p) && C.PayloadAt(a.mem, p) % C.QUANTUM == 0
    requires p + C.OWNER_WORD in a.mem && a.mem[p + C.OWNER_WORD] != 0
    modifies a`mem, a`lists, a`runs, a.bins, a.mask, c`mem, c`lists, c.heads, c.counts
    ensures Joined(c, a, abroad, hand)
    ensures 0 <= C.ClassIndex(bytes) < C.CLASS_COUNT == |old(c.lists)|
    ensures var idx := C.ClassIndex(bytes);
            var s := old(c.lists)[idx];
            var n := if |s| >= 32 then |s| - 16 else 0;
            && c.lists == old(c.lists)[idx := [p] + s[n..]] && |c.lists[idx]| <= 32
            && direct == C.LocalOf(old(a.mem), s[..n], a.self) && remote == C.ForeignOf(old(a.mem), s[..n], a.self)
    ensures WordsOk(a.Where(), old(a.Knows())) && a.Knows() == After(a.Where(), old(a.Knows()), Frees(direct))
    ensures LiveBut(old(a.runs), a.runs, direct)
    ensures LinkedHome(a.mem, abroad, heads, remote)
    ensures AwayKept(old(a.mem), a.mem, ChunkSet(a.chunks), remote + [p, p + C.STAMP])
    ensures C.Quiet([hand], old(a.mem), a.mem)
    ensures KeepsOwn(old(a.mem), a.mem, old(a.runs), a.runs, a.parked, a.parked, hand)
  {
    hide C.Cache.Valid, Allocator.Sound, Allocator.GrowthOk, Held, HeapOk, SoundSystem, KeepsOwn, LinkedHome, C.LocalOf;
    hide C.ForeignOf, LiveBut, After, AllStamps, AwayKept;
    C.ClassFitsPayload(bytes, C.PayloadAt(a.mem, p));
    var idx := C.ClassIndex(bytes);
    ghost var m0, r0, core, s := a.mem, a.runs, a.Knows(), c.lists[idx];
    SoundHeap(a);
    CountKnown(c, idx);
    DrainStart(m0, r0, core.parked, a.self, a.Where(), core, [p] + hand);
    direct, remote := [], [];
    assert s[..0] == [] && s[0..] == s;
    NothingLinked(m0, abroad, heads);
    AwayStart(m0, ChunkSet(a.chunks));
    EntriesFar(m0, a.self, a.runs, a.parked, abroad, c.lists, hand, p, idx);
    if c.counts[idx] >= C.HIGH_WATERMARK {
      direct, remote := Drain(c, a, idx, C.LOW_WATERMARK, heads, abroad, [p] + hand, []);
      assert [] + remote == remote;
    }
    SameHeader(m0, a.mem, [p] + hand, p);
    KeepsFewer(m0, a.mem, r0, a.runs, core.parked, core.parked, [p] + hand, hand);
    CountKnown(c, idx);
    ghost var m1, r1 := a.mem, a.runs;
    PutBy(c, a, idx, p, abroad, hand);
    LinkedBeside(m1, a.mem, abroad, heads, s, m0, a.self, remote, p);
    AwayEntry(m1, a.mem, ChunkSet(a.chunks), p);
    AwayTwice(m0, m1, a.mem, ChunkSet(a.chunks), ChunkSet(a.chunks), remote, [p, p + C.STAMP]);
    QuietFewer(m0, m1, [p] + hand, hand);
    QuietTwice([hand], m0, m1, a.mem);
    KeepsTwice(m0, m1, a.mem, r0, r1, a.runs, core.parked, core.parked, core.parked, hand);
  }

  // A run in hand is apart from every entry of a class.
  lemma EntriesFar(mem: Memory, self: int, runs: Runs, parked: seq<Addr>, abroad: set<Chunk>, lists: seq<seq<Addr>>,
                   hand: seq<Addr>, p: Addr, idx: nat)
    requires Held(mem, self, runs, parked, abroad, lists, [p] + hand) && idx < |lists|
    ensures forall q :: q in lists[idx] ==> C.Apart(p, q)
  {
    assert ([p] + hand)[0] == p && p in [p] + hand;
  }

  lemma {:induction false} RemoteFrom(mem: Memory, s: seq<Addr>, self: int)
    ensures forall q :: q in C.ForeignOf(mem, s, self) ==> q in s
  {
    if s == [] {
    } else {
      RemoteFrom(mem, s[1..], self);
      assert s == [s[0]] + s[1..];
    }
  }

  // Stamping and linking the entry p leaves the links of runs apart from it alone.
  lemma LinkedBeside(m0: Memory, m1: Memory, abroad: set<Chunk>, heads: Addr -> Addr, s: seq<Addr>, mem: Memory,
                     self: int, remote: seq<Addr>, p: Addr)
    requires LinkedHome(m0, abroad, heads, remote) && C.KeptButEntry(m0, m1, p)
    requires remote == [] || exists n :: 0 <= n <= |s| && remote == C.ForeignOf(mem, s[..n], self)
    requires forall q :: q in s ==> C.Apart(p, q)
    ensures LinkedHome(m1, abroad, heads, remote)
  {
    if remote != [] {
      var n :| 0 <= n <= |s| && remote == C.ForeignOf(mem, s[..n], self);
      RemoteFrom(mem, s[..n], self);
      assert forall q :: q in remote ==> q in s;
    }
  }

  lemma QuietFewer(m0: Memory, m1: Memory, s: seq<Addr>, t: seq<Addr>)
    requires C.Quiet([s], m0, m1) && forall p :: p in t ==> p in s
    ensures C.Quiet([t], m0, m1)
  {
    forall p | p in t
      ensures C.SameEntry(m0, m1, p)
    {
      assert p in [s][0];
    }
  }

  lemma SameHeader(m0: Memory, m1: Memory, hand: seq<Addr>, p: Addr)
    requires C.Quiet([hand], m0, m1) && p in hand && p - HEADER_SIZE in m0 && p + C.OWNER_WORD in m0
    ensures p - HEADER_SIZE in m1 && C.PayloadAt(m1, p) == C.PayloadAt(m0, p)
    ensures p + C.OWNER_WORD in m1 && m1[p + C.OWNER_WORD] == m0[p + C.OWNER_WORD]
  {
    assert p in [hand][0] && C.SameEntry(m0, m1, p);
  }
}
