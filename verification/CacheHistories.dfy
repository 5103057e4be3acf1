/** Two histories of a thread's cache over its own runner: a refill that loses a run, and
    a class that ends up with more entries than its high watermark. */
module CacheHistories {
  import opened Words
  import opened SizeClasses
  import opened Tiling
  import opened HeapOps
  import opened FreeLists
  import opened HeapMemory
  import opened RunnerState
  import opened Runner
  import opened CacheHeap
  import C = RunCache

  // ---------- the loss of a run ----------

  /** A system that meets two requests, of one page and of two, and no other. */
  function TwoChunks(): System {
    (k: nat, n: nat) => TwoAnswers(k, n)
  }

  function TwoAnswers(k: nat, n: nat): Option<Arena> {
    if k == 0 && n == 4096 then Some(Arena(65536, Zeros(65536, 4096)))
    else if k == 1 && n == 8192 then Some(Arena(131072, Zeros(131072, 8192)))
    else None
  }

  function Zeros(base: nat, n: nat): Memory {
    map w | base <= w < base + n && w % WORD_BYTES == 0 :: Zero(w)
  }

  function Zero(a: Addr): int {
    0
  }

  lemma TwoChunksSound()
    ensures SoundSystem(TwoChunks(), 0, {})
  {
    assert SoundArena(Arena(65536, Zeros(65536, 4096)), 4096);
    assert SoundArena(Arena(131072, Zeros(131072, 8192)), 8192);
  }

  const SMALL: Chunk := Chunk(65536, 4096)
  const LARGE: Chunk := Chunk(131072, 8192)

  function NoLists(): seq<seq<Addr>> {
    seq(BIN_COUNT, _ => [])
  }

  function StartLists(): seq<seq<Addr>> {
    NoLists()[510 := [65536]]
  }

  // After the constructor, after the first allocation of 4096 bytes.
  function Start(): Core {
    Core(map[65536 := Run(4080, true, 0, SMALL)], StartLists(), [], [SMALL], 4096, 0, 1)
  }

  function Grew(): Core {
    Core(map[65536 := Run(4080, true, 0, SMALL), 131072 := Run(8176, true, 0, LARGE)], StartLists()[512 := [131072]],
        [], [LARGE, SMALL], 16384, 0, 2)
  }

  function Taken(): Runs {
    map[65536 := Run(4080, true, 0, SMALL), 131072 := Run(4112, false, 0, LARGE),
        135184 := Run(4064, true, 4112, LARGE)]
  }

  lemma Bins()
    ensures BinIndex(4080) == 510 && BinIndex(8176) == 512 && BinIndex(4112) == 512
  {
    hide AlignUp8, OrOne, BitWidth;
    CutoffIsFourKiB();
    BinAlignment(8176);
    BinAlignment(4112);
    CutoffWidth();
    WidthOf4103();
    BitWidthMonotone(4096, 4119);
    BitWidthMonotone(4119, 8183);
    BitWidthMonotone(8183, 8191);
    WidthOf8191();
  }

  lemma WidthOf8191()
    ensures BitWidth(8191) == 13
  {
    assert BitWidth(1) == 1;
    assert BitWidth(3) == 2;
    assert BitWidth(7) == 3;
    assert BitWidth(15) == 4;
    assert BitWidth(31) == 5;
    assert BitWidth(63) == 6;
    assert BitWidth(127) == 7;
    assert BitWidth(255) == 8;
    assert BitWidth(511) == 9;
    assert BitWidth(1023) == 10;
    assert BitWidth(2047) == 11;
    assert BitWidth(4095) == 12;
  }

  lemma Pages()
    ensures OwnedChunkBytes(4096, 4096) == Some(4096) && OwnedChunkBytes(4176, 4096) == Some(8192)
    ensures OwnedChunkBytes(16384, 4096) == Some(16384)
    ensures RunBytesFor(4096) == 4112 && IsWord(4096)
  {
  }

  lemma {:induction false} NothingFrom(runs: Runs, lists: seq<seq<Addr>>, needed: nat, from: nat)
    requires forall i :: from <= i < |lists| ==> lists[i] == []
    ensures BestFit(runs, lists, needed, from) == 0
    decreases |lists| - from
  {
    if from >= |lists| {
    } else {
      NothingFrom(runs, lists, needed, from + 1);
    }
  }

  // The lists while the two chunks come in.
  lemma ListsSoFar()
    ensures |NoLists()| == BIN_COUNT && ListsWith(NoLists(), 4080, 65536) == StartLists()
    ensures ListsWith(StartLists(), 8176, 131072) == StartLists()[512 := [131072]]
    ensures forall i :: 512 <= i < BIN_COUNT ==> StartLists()[i] == []
  {
    Bins();
    hide BinIndex;
    var none: seq<Addr> := [];
    assert [65536] + none == [65536] && [131072] + none == [131072];
  }

  // The first request finds 4080 bytes free where it needs 4112, and grows.
  lemma Grows(site: Site)
    requires site == Site(4096, true, TwoChunks())
    ensures WordsOk(site, Start()) && Search(Start(), 4112) == 0 && Drained(Start()) == Start()
    ensures Grown(site, Start(), 4112) == (Grew(), true) && Search(Grew(), 4112) == 131072
  {
    Bins();
    Pages();
    ListsSoFar();
    hide BinIndex, OwnedChunkBytes, BestFit, ListsWith, NoLists;
    NothingFrom(Start().runs, Start().lists, 4112, 512);
    DoubledSize(8192);
    HeadIsBest(Grew().runs, Grew().lists, 4112, 512);
    assert [LARGE] + [SMALL] == [LARGE, SMALL];
    assert WithChunk(Start().runs, LARGE) == Grew().runs;
    assert AddedChunk(site, Start(), 4176) == (Grew().(nextGrowth := 4096), true);
  }

  lemma Starts(site: Site)
    requires site == Site(4096, true, TwoChunks())
    ensures EagerCore(site, 4096) == (Start(), true)
  {
    Pages();
    ListsSoFar();
    assert Empty(4096, 0).lists == NoLists();
    hide BinIndex, OwnedChunkBytes, ListsWith, NoLists;
    var none: seq<Chunk> := [];
    assert [SMALL] + none == [SMALL];
    assert WithChunk(map[], SMALL) == Start().runs;
    assert AddedChunk(site, Empty(4096, 0), 4096).0.chunks == [SMALL];
  }

  lemma FirstTaken(site: Site)
    requires site == Site(4096, true, TwoChunks())
    ensures WordsOk(site, Start()) && IsWord(4096)
    ensures var c := Nth(site, Start(), 4096, 1);
            c.runs == Taken() && c.parked == [] && c.nextGrowth == 16384 && c.deferred == 0 && c.calls == 2
  {
    Grows(site);
    ClassesServable(4096);
    Pages();
    FoundLarge(site);
    hide Search, Grown, OwnedChunkBytes, Drained, RunBytesFor, NormalizedRunBytes, BinIndex, ListsWith, ListsWithout;
    hide Servable, Found, Start;
    assert Allocated(site, Start(), 4096, 1).0 == Carved(Grew(), 131072, 4112);
    TakenIsCarved();
    StartsWith(site, Start(), 4096);
  }

  lemma FoundLarge(site: Site)
    requires site == Site(4096, true, TwoChunks())
    ensures WordsOk(site, Start()) && Found(site, Start(), 4112) == (Grew(), 131072, false)
  {
    Grows(site);
    hide Search, Grown, Drained;
  }

  lemma TakenIsCarved()
    ensures Carve(Grew().runs, 131072, 4112) == Taken()
  {
    hide NoLists;
  }

  lemma NoRoom(c: Core)
    requires c.runs == Taken() && c.parked == []
    ensures Stuck(c, 4112)
  {
    assert Free(Taken()) == map[65536 := 4080, 135184 := 4064];
  }

  // The grow after the second is refused.
  lemma SecondRefused(site: Site, c: Core)
    requires site == Site(4096, true, TwoChunks()) && WordsOk(site, c) && c.nextGrowth == 16384 && c.deferred == 0
    requires c.calls == 2
    ensures MustGrow(site, c, 4112) && CannotGrow(site, c, 4112)
  {
    Pages();
    hide OwnedChunkBytes;
  }

  lemma FirstNotRefused(site: Site)
    requires site == Site(4096, true, TwoChunks())
    ensures WordsOk(site, Start()) && !Throws(site, Start(), 4112)
  {
    Pages();
    hide OwnedChunkBytes;
  }

  // Now 4080 and 4064 bytes are free, and the system has nothing more.
  lemma SecondThrows(site: Site)
    requires site == Site(4096, true, TwoChunks())
    ensures WordsOk(site, Start()) && !ThrowsAt(site, Start(), 4096, 0) && ThrowsAt(site, Start(), 4096, 1)
  {
    Pages();
    FirstTaken(site);
    FirstNotRefused(site);
    StartsWith(site, Start(), 4096);
    hide RunBytesFor, Nth, Stuck, MustGrow, CannotGrow, Start, Taken;
    var c := Nth(site, Start(), 4096, 1);
    NoRoom(c);
    SecondRefused(site, c);
  }

  function Nothing(p: Addr): Addr {
    0
  }

  // A cache that is empty goes with any runner.
  lemma EmptyJoins(c: C.Cache, a: Allocator)
    requires c.Valid() && a.Valid() && c.local == a.self && c.mem == a.mem && c.lists == C.Empties()
    requires c.heads as object != a.bins && c.heads as object != a.mask && c.counts as object != a.bins
    requires c.counts as object != a.mask
    ensures Joined(c, a, {}, [])
  {
    hide SoundSystem, Heap, MemOk, Chain;
    assert ChunkSet(a.chunks) + {} == ChunkSet(a.chunks);
    ClassCount(c);
  }

  /** The loss happens: over that system, a thread whose runner has one page takes 4096
      bytes from its second chunk, then finds no room for the next run and cannot grow;
      the exception takes the run with it. */
  method LoseOne() returns (c: C.Cache, a: Allocator, ghost r: Taking)
    ensures fresh(c) && fresh(a) && Joined(c, a, {}, [r.lost])
    ensures r.out == BadAlloc && r.lost != 0 && OwnRun(a.runs, a.parked, r.lost)
  {
    hide Allocator.Sound, Allocator.GrowthOk, Allocator.AsConstructed, C.Cache.Valid, SoundSystem, ThrowsAt, Nth;
    hide EagerCore, Start;
    hide Held, Separate, KeepsOwn, LinkedHome, Stocked, FixedTakes, FirstThrowFrom, OwnedChunkBytes;
    TwoChunksSound();
    var eager := Allocator.Eager(1, 4096, true, TwoChunks(), 4096);
    ghost var site := Site(4096, true, TwoChunks());
    Starts(site);
    a := eager.value;
    c := new C.Cache(a.mem);
    c.Attach(1);
    assert c.lists == C.Empties();
    EmptyJoins(c, a);
    SecondThrows(site);
    FirstThrowIs(site, a.Knows(), 4096, 1);
    var out;
    out, r := AllocateFrom(c, a, 4096, Nothing, {}, []);
    assert [r.lost] + [] == [r.lost];
  }

  // ---------- a class beyond its watermark ----------

  /** One free run, alone in its bin. */
  ghost predicate OneFree(c: Core, x: Addr, s: nat) {
    && c.parked == [] && x > 0 && LegalRunSize(s) && IsWord(s)
    && x in c.runs && c.runs[x].free && c.runs[x].size == s && (forall y :: y in c.runs && c.runs[y].free ==> y == x)
    && 0 <= BinIndex(s) < BIN_COUNT && c.lists == NoLists()[BinIndex(s) := [x]]
  }

  // The search passes the empty bins and finds the run.
  lemma {:induction false} BestOfOne(runs: Runs, needed: nat, from: nat, b: nat, x: Addr)
    requires from <= b < BIN_COUNT && x in runs && x != 0 && needed <= runs[x].size
    ensures BestFit(runs, NoLists()[b := [x]], needed, from) == x
    decreases b - from
  {
    if from >= b {
    } else {
      BestOfOne(runs, needed, from + 1, b, x);
    }
  }

  lemma CarveOne(runs: Runs, x: Addr)
    requires x in runs && runs[x].free && runs[x].size >= 160
    ensures var after := Carve(runs, x, 48);
            && x in after && !after[x].free && after[x].size == 48
            && x + 48 in after && after[x + 48].free && after[x + 48].size == runs[x].size - 48
            && forall y :: y in runs && y != x && y != x + 48 ==>
                 y in after && after[y].free == runs[y].free && after[y].size == runs[y].size
    ensures forall y :: y in Carve(runs, x, 48) ==> y in runs || y == x + 48
  {
  }

  lemma OneRemoved(x: Addr, b: nat, y: Addr, d: nat)
    requires b < BIN_COUNT && d < BIN_COUNT
    ensures |NoLists()[b := [x]]| == BIN_COUNT && Without([x], x) == []
    ensures NoLists()[b := [x]][b := []] == NoLists() && NoLists()[d := [y] + NoLists()[d]] == NoLists()[d := [y]]
  {
    var none: seq<Addr> := [];
    assert [y] + none == [y];
    assert NoLists()[b := none] == NoLists();
  }

  // A small run is taken from it; the rest is again one free run.
  lemma OneFreeStep(site: Site, c: Core, x: Addr, s: nat)
    requires WordsOk(site, c) && OneFree(c, x, s) && s >= 208
    ensures var r := Allocated(site, c, 16, 1); r.1 == Got(x + HEADER_SIZE) && OneFree(r.0, x + 48, s - 48)
    ensures !ThrowsAt(site, c, 16, 0)
  {
    ClassesServable(16);
    SmallNeed();
    BinMonotone(48, s);
    BinInRange(48);
    LegalRest(s);
    BinInRange(s - 48);
    hide BinIndex, NoLists, NormalizedRunBytes, RunBytesFor;
    BestOfOne(c.runs, 48, StartBin(48), BinIndex(s), x);
    CarveOne(c.runs, x);
    OneRemoved(x, BinIndex(s), x + 48, BinIndex(s - 48));
    assert Search(c, 48) == x;
    hide Carve, BestFit;
    assert x in Free(c.runs);
  }

  lemma SmallNeed()
    ensures IsWord(16) && Servable(16, 1) && RunBytesFor(16) == 48 && LegalRunSize(48)
  {
  }

  lemma LegalRest(s: nat)
    requires LegalRunSize(s) && s >= 208 && IsWord(s)
    ensures LegalRunSize(s - 48) && IsWord(s - 48) && Splits(s, 48)
  {
  }

  // Four of them fit into a page.
  lemma {:induction false} OneFreeAfter(site: Site, c: Core, x: Addr, s: nat, k: nat)
    requires WordsOk(site, c) && OneFree(c, x, s) && s >= 400 && k <= 4
    ensures OneFree(Nth(site, c, 16, k), x + 48 * k, s - 48 * k) && QuietBefore(site, c, 16, k)
  {
    hide OneFree, Allocated, ThrowsAt;
    if k == 0 {
    } else {
      OneFreeAfter(site, c, x, s, k - 1);
      OneFreeStep(site, Nth(site, c, 16, k - 1), x + 48 * (k - 1), s - 48 * (k - 1));
      NthMore(site, c, 16, k - 1);
      QuietMore(site, c, 16, k - 1);
      assert x + 48 * (k - 1) + 48 == x + 48 * k && s - 48 * (k - 1) - 48 == s - 48 * k;
    }
  }

  lemma FourFit(site: Site, c: Core, x: Addr, s: nat)
    requires WordsOk(site, c) && OneFree(c, x, s) && s >= 400
    ensures !FirstThrowFrom(site, c, 16, 0) && !FirstThrowFrom(site, c, 16, 1)
  {
    OneFreeAfter(site, c, x, s, 4);
    NoThrow(site, c, 16);
  }

  lemma StartIsOneFree()
    ensures OneFree(Start(), 65536, 4080)
  {
    Bins();
    hide BinIndex, NoLists;
  }

  // The other thread: a runner with one page at 16384.
  function OnePage(): System {
    (k: nat, n: nat) => if k == 0 && n == 4096 then Some(Arena(16384, Zeros(16384, 4096))) else None
  }

  const FAR: Chunk := Chunk(16384, 4096)

  function FarRun(k: nat): Addr {
    16384 + 48 * k
  }

  function FarPayload(k: nat): Addr {
    FarRun(k) + HEADER_SIZE
  }

  lemma OnePageSound()
    ensures SoundSystem(OnePage(), 0, {})
  {
    assert SoundArena(Arena(16384, Zeros(16384, 4096)), 4096);
  }

  /** The first k runs of the page are allocated, 48 bytes each, and the rest is free. */
  ghost predicate Taken48(runs: Runs, k: nat) {
    && (forall j: nat {:trigger FarRun(j)} :: j < k ==>
           FarRun(j) in runs && !runs[FarRun(j)].free && runs[FarRun(j)].size == 48)
    && FarRun(k) in runs && runs[FarRun(k)].free && runs[FarRun(k)].size == 4080 - 48 * k
  }

  lemma TakeOneMore(runs: Runs, k: nat)
    requires Taken48(runs, k) && k < 32
    ensures Taken48(Carve(runs, FarRun(k), 48), k + 1)
  {
    CarveOne(runs, FarRun(k));
    hide Carve;
    assert FarRun(k + 1) == FarRun(k) + 48;
    forall j: nat {:trigger FarRun(j)} | j < k
      ensures FarRun(j) != FarRun(k) && FarRun(j) != FarRun(k) + 48
    {
    }
  }

  lemma FirstPage(b: Allocator)
    requires b.system == OnePage() && b.granularity == 4096 && b.AsConstructed(4096)
    ensures b.chunks == [FAR] && Taken48(b.runs, 0)
  {
    hide ChunkInstalled;
    PageOf4096();
  }

  lemma PageOf4096()
    ensures OwnedChunkBytes(4096, 4096) == Some(4096) && IsWord(4096)
  {
  }

  /** Another thread takes 32 runs. */
  method OtherThread() returns (b: Allocator)
    ensures fresh(b) && b.Sound() && b.self == 7 && b.chunks == [FAR] && Taken48(b.runs, 32)
  {
    hide Allocator.Sound, Allocator.GrowthOk, Allocator.AsConstructed, SoundSystem, Carve, Taken48, OwnedChunkBytes;
    hide EagerCore, PayloadsKept, ElsewhereKept, Carved;
    OnePageSound();
    PageOf4096();
    var eager := Allocator.Eager(7, 4096, false, OnePage(), 4096);
    b := eager.value;
    FirstPage(b);
    for k := 0 to 32
      invariant b.Sound() && b.self == 7 && b.chunks == [FAR] && Taken48(b.runs, k)
      invariant fresh(b) && fresh(b.bins) && fresh(b.mask)
    {
      TakeOneMore(b.runs, k);
      NextFar(b.runs, k);
      var p := b.AllocateFromFreeRun(FarRun(k), 48);
    }
  }

  lemma NextFar(runs: Runs, k: nat)
    requires Taken48(runs, k) && k < 32
    ensures FarRun(k) in runs && runs[FarRun(k)].free && 48 <= runs[FarRun(k)].size && LegalRunSize(48)
  {
  }

  /** One memory for both runners. */
  function Merged(mem: Memory, far: Memory): Memory {
    map x | x in mem.Keys + far.Keys :: if FAR.begin <= x < FAR.begin + FAR.bytes &&
        x in far then far[x] else if x in mem then mem[x] else far[x]
  }

  /** The other thread's runs from the i-th on, as payloads. */
  function FarHand(i: nat): (s: seq<Addr>)
    requires i <= 32
    ensures |s| == 32 - i && forall j :: 0 <= j < |s| ==> s[j] == FarPayload(i + j)
  {
    seq(32 - i, j requires 0 <= j < 32 - i => FarPayload(i + j))
  }

  ghost predicate FarWords(mem: Memory, k: nat) {
    && FarPayload(k) - HEADER_SIZE in mem && C.PayloadAt(mem, FarPayload(k)) == 32
    && FarPayload(k) + C.OWNER_WORD in mem && mem[FarPayload(k) + C.OWNER_WORD] == 7
  }

  ghost predicate FarOk(mem: Memory, i: nat) {
    forall k: nat {:trigger FarPayload(k)} :: i <= k < 32 ==> FarWords(mem, k)
  }

  lemma MergedWords(b: Allocator, mem: Memory)
    requires b.Sound() && b.self == 7 && Taken48(b.runs, 32)
    ensures FarOk(Merged(mem, b.mem), 0)
  {
    hide SoundSystem, BinsOk, MaskOk, Chain, SizeField;
    var m := Merged(mem, b.mem);
    forall k: nat | k < 32
      ensures FarWords(m, k)
    {
      assert FarRun(k) in b.runs;
      LiveRun(b.mem, b.runs, ChunkSet(b.chunks), 7, FarRun(k));
    }
  }

  lemma MergedWrites(a: Allocator, far: Memory)
    requires forall c :: c in a.chunks ==> Apart(c, FAR)
    ensures UserWrites(a.mem, Merged(a.mem, far), a.runs, ChunkSet(a.chunks), a.parked)
  {
  }

  lemma FarHeld(mem: Memory, runs: Runs)
    requires FarOk(mem, 0)
    ensures Held(mem, 1, runs, [], {FAR}, C.Empties(), FarHand(0))
  {
    forall p | p in FarHand(0)
      ensures EntryAt(mem, 1, runs, [], {FAR}, p)
    {
      var k: nat :| k < 32 && p == FarPayload(k);
      assert FarWords(mem, k) && FAR in {FAR};
    }
  }

  lemma FarSeparate(chunks: seq<Chunk>)
    requires chunks == [SMALL]
    ensures Separate(TwoChunks(), 1, ChunkSet(chunks), {FAR})
  {
    assert forall x :: x in ChunkSet(chunks) ==> x == SMALL;
    assert SoundArena(Arena(131072, Zeros(131072, 8192)), 8192);
  }

  // A thread with an empty cache and a page of its own, which has the other's runs.
  method Meet() returns (c: C.Cache, a: Allocator)
    ensures fresh(c) && fresh(c.heads) && fresh(c.counts) && fresh(a) && fresh(a.bins) && fresh(a.mask)
    ensures Joined(c, a, {FAR}, FarHand(0)) && FarOk(a.mem, 0) && c.lists == C.Empties()
    ensures a.Where() == Site(4096, true, TwoChunks()) && a.Knows() == Start() && a.self == 1
  {
    hide Allocator.Sound, Allocator.GrowthOk, Allocator.AsConstructed, C.Cache.Valid, SoundSystem, EagerCore, Start;
    hide Held, Separate, OwnedChunkBytes;
    hide Taken48, FarOk, UserWrites, Merged, FarHand;
    var b := OtherThread();
    TwoChunksSound();
    var eager := Allocator.Eager(1, 4096, true, TwoChunks(), 4096);
    ghost var site := Site(4096, true, TwoChunks());
    Starts(site);
    a := eager.value;
    StartKnown();
    MergedWrites(a, b.mem);
    MergedWords(b, a.mem);
    a.Written(Merged(a.mem, b.mem));
    c := new C.Cache(a.mem);
    c.Attach(1);
    ClassCount(c);
    assert c.lists == C.Empties();
    FarHeld(a.mem, a.runs);
    FarSeparate(a.chunks);
  }

  lemma StartKnown()
    ensures Start().chunks == [SMALL] && Start().parked == [] && Start().calls == 1 && Apart(SMALL, FAR)
    ensures forall h :: h in Start().runs ==> Start().runs[h].free
    ensures WordsOk(Site(4096, true, TwoChunks()), Start())
  {
    hide NoLists;
  }

  // The thread has no live run, so no entry is its own.
  lemma NoneIsOwn(c: C.Cache, a: Allocator, abroad: set<Chunk>, hand: seq<Addr>)
    requires Joined(c, a, abroad, hand) && forall h :: h in a.runs ==> a.runs[h].free
    ensures C.NoneOwned(a.mem, c.lists[0], a.self)
  {
    hide Allocator.Sound, Allocator.GrowthOk, Separate, Abroad;
    assert C.ClassOk(c.mem, c.heads[0], c.counts[0], c.lists[0], 0, c.local);
    forall j: nat | j < |c.lists[0]|
      ensures c.lists[0][j] + C.STAMP in a.mem && a.mem[c.lists[0][j] + C.STAMP] != a.self
    {
      assert C.EntryOk(c.mem, c.lists[0], j) && c.lists[0][j] in c.lists[0];
      assert AllAt(a.mem, a.self, a.runs, a.parked, abroad, c.lists[0]);
      assert EntryAt(a.mem, a.self, a.runs, a.parked, abroad, c.lists[0][j]);
    }
  }

  lemma FarStays(m0: Memory, m1: Memory, i: nat)
    requires i < 32 && FarOk(m0, i) && C.Quiet([FarHand(i + 1)], m0, m1)
    ensures FarOk(m1, i + 1)
  {
    forall k: nat | i + 1 <= k < 32
      ensures FarWords(m1, k)
    {
      assert FarWords(m0, k);
      assert FarHand(i + 1)[k - (i + 1)] == FarPayload(k);
      assert FarPayload(k) in [FarHand(i + 1)][0];
      assert C.SameEntry(m0, m1, FarPayload(k));
    }
  }

  lemma FarNext(mem: Memory, i: nat)
    requires i < 32 && FarOk(mem, i)
    ensures FarHand(i) == [FarPayload(i)] + FarHand(i + 1) && FarWords(mem, i) && FarPayload(i) > 0
    ensures C.ClassIndex(16) == 0
  {
  }

  lemma NoFrees(site: Site, c: Core, mem: Memory, self: int)
    requires WordsOk(site, c)
    ensures C.LocalOf(mem, [], self) == [] && After(site, c, Frees([])) == c
  {
  }

  // The thread frees them all: its class is full of entries of the other runner.
  method FillWithFar() returns (c: C.Cache, a: Allocator)
    ensures fresh(c) && fresh(c.heads) && fresh(c.counts) && fresh(a) && fresh(a.bins) && fresh(a.mask)
    ensures Joined(c, a, {FAR}, FarHand(32)) && |c.lists| == C.CLASS_COUNT && |c.lists[0]| == 32
    ensures a.Where() == Site(4096, true, TwoChunks()) && a.Knows() == Start()
  {
    hide Allocator.Sound, Allocator.GrowthOk, C.Cache.Valid, SoundSystem, Start, Held, Separate, FarOk, FarHand;
    hide FarWords, FarPayload;
    hide KeepsOwn, LinkedHome, LiveBut, C.Quiet, C.LocalOf, C.ForeignOf, After, Frees;
    c, a := Meet();
    ghost var site := Site(4096, true, TwoChunks());
    StartKnown();
    for i := 0 to 32
      invariant fresh(c) && fresh(c.heads) && fresh(c.counts) && fresh(a) && fresh(a.bins) && fresh(a.mask)
      invariant Joined(c, a, {FAR}, FarHand(i)) && FarOk(a.mem, i) && |c.lists| == C.CLASS_COUNT && |c.lists[0]| == i
      invariant a.Where() == site && a.Knows() == Start()
    {
      FarNext(a.mem, i);
      FarWordsKnown(a.mem, i);
      ghost var m, s := a.mem, c.lists[0];
      NoFrees(site, Start(), m, a.self);
      assert s[..0] == [] && s[0..] == s;
      ghost var direct, remote := DeallocateTo(c, a, FarPayload(i), 16, Nothing, {FAR}, FarHand(i + 1));
      FarStays(m, a.mem, i);
    }
  }

  // No exception, so three more.
  lemma ThreeMore(site: Site, c: Core, c': Core, lists: seq<seq<Addr>>, lists': seq<seq<Addr>>, size: nat, r: Taking)
    requires WordsOk(site, c) && 0 < size <= C.CUTOFF && 0 < |lists|
    requires GrowingTakes(site, c, c', lists, lists', 0, size, r)
    requires !FirstThrowFrom(site, c, size, 0)
    ensures r.out.Got? && |lists'| == |lists| && |lists'[0]| == |lists[0]| + C.REFILL_BATCH - 1
  {
    hide FirstThrowFrom, Stocked, Nth;
  }

  /** A class does reach 35 entries: a thread frees 32 runs of another one into it, and then
      allocates; its runner grants four runs, of which three are put by. */
  method ReachThirtyFive() returns (c: C.Cache, a: Allocator, ghost r: Taking)
    ensures fresh(c) && fresh(a) && Joined(c, a, {FAR}, GrantedRuns(r)) && r.out.Got?
    ensures |c.lists| == C.CLASS_COUNT && |c.lists[0]| == C.HIGH_WATERMARK + C.REFILL_BATCH - 1
  {
    hide Allocator.Sound, Allocator.GrowthOk, C.Cache.Valid, SoundSystem, Start, Held, Separate, FarHand;
    hide KeepsOwn, LinkedHome, FirstThrowFrom, GrowingTakes, FixedTakes, C.NoneOwned, C.IsFirstOwned, GrantedRuns;
    c, a := FillWithFar();
    ghost var site, lists := Site(4096, true, TwoChunks()), c.lists;
    StartKnown();
    NoneIsOwn(c, a, {FAR}, FarHand(32));
    StartIsOneFree();
    FourFit(site, Start(), 65536, 4080);
    var out;
    NoHandLeft([]);
    out, r := AllocateFrom(c, a, 16, Nothing, {FAR}, FarHand(32));
    NoHandLeft(GrantedRuns(r));
    ThreeMore(site, Start(), a.Knows(), lists, c.lists, 16, r);
  }

  lemma FarWordsKnown(mem: Memory, k: nat)
    requires FarWords(mem, k)
    ensures var p := FarPayload(k);
            && p - HEADER_SIZE in mem && C.PayloadAt(mem, p) == 32
            && p + C.OWNER_WORD in mem && mem[p + C.OWNER_WORD] == 7
  {
  }

  lemma NoHandLeft(s: seq<Addr>)
    ensures s + FarHand(32) == s && C.ClassIndex(16) == 0 && C.ClassBytes(0) == 16
  {
  }
}
