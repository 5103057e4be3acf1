/** The runner as a function of what it knows: every operation as a step from one
    value to the next, with the answer it gives. The class in Runner is proved to take
    these very steps; here is what they mean together. */
module RunnerState {
  import opened Words
  import opened SizeClasses
  import opened BinMask
  import opened Tiling
  import opened HeapOps
  import opened CanonicalForm
  import opened FreeLists

  /** What the operating system hands out: a region and the words it holds. */
  datatype Arena = Arena(base: Addr, words: Memory)

  /** The answer to the k-th request, which asks for a number of bytes: a region or
      failure. Calls into the operating system are not part of this model; any
      system that hands out usable regions, each apart from the others, will do. */
  type System = (nat, nat) -> Option<Arena>

  /** What never changes about a runner. */
  datatype Site = Site(granularity: nat, canGrow: bool, system: System)

  /** What a runner knows: its tiling, the free lists of its bins, the runs parked with
      it, its chunks, and what it will ask the system for. */
  datatype Core = Core(runs: Runs, lists: seq<seq<Addr>>, parked: seq<Addr>, chunks: seq<Chunk>, nextGrowth: nat,
            deferred: nat, calls: nat)

  /** What `allocate_bytes` answers: null, an exception, or a payload. */
  datatype Outcome = Null | BadAlloc | Got(p: Addr)

  predicate WordsOk(site: Site, c: Core) {
    IsWord(site.granularity) && IsWord(c.nextGrowth) && IsWord(c.deferred)
  }

  /** `_owned_chunk_bytes_for`: the request rounded up to whole pages, or None
      where the source throws. */
  function OwnedChunkBytes(bytes: nat, granularity: nat): Option<nat>
    requires IsWord(bytes) && IsWord(granularity)
  {
    CheckedRoundToMultipleOf(Max(bytes, MIN_CHUNK), granularity)
  }

  /** Whole pages that hold the request and the least chunk. */
  ghost predicate WholePages(n: nat, bytes: nat, granularity: nat)
    requires granularity > 0
  {
    n % granularity == 0 && n >= bytes && n >= 64
  }

  /** A chunk has the least number of whole pages that will do, and is refused exactly
      when there are no pages or that number of bytes is no word. */
  lemma OwnedChunkIsLeast(bytes: nat, granularity: nat)
    requires IsWord(bytes) && IsWord(granularity)
    ensures OwnedChunkBytes(bytes, granularity).Some? ==>
              var n := OwnedChunkBytes(bytes, granularity).value;
              && granularity > 0 && IsWord(n) && WholePages(n, bytes, granularity)
              && forall k: nat :: WholePages(k, bytes, granularity) ==> n <= k
    ensures OwnedChunkBytes(bytes, granularity).None? <==>
              granularity == 0 || forall k: nat :: WholePages(k, bytes, granularity) ==> !IsWord(k)
  {
    if granularity > 0 {
      var asked := Max(bytes, MIN_CHUNK);
      RoundedUp(asked, granularity);
      var n := if asked % granularity == 0 then asked else asked + (granularity - asked % granularity);
      LeastMultipleUnique(n, asked, granularity);
      assert WholePages(n, bytes, granularity);
      forall k: nat | WholePages(k, bytes, granularity)
        ensures n <= k
      {
        LeastOfMultiples(n, k, asked, granularity);
      }
    }
  }

  lemma LeastOfMultiples(n: nat, k: nat, asked: nat, granularity: nat)
    requires granularity > 0 && LeastMultipleFrom(n, asked, granularity) && k % granularity == 0 && k >= asked
    ensures n <= k
  {
    var a, b := n / granularity, k / granularity;
    assert n == a * granularity && k == b * granularity;
    MulMonotone(a, b, granularity);
    MulMonotone(b + 1, a, granularity);
  }

  /** The growth after a chunk of this size: twice as much, or the largest word. */
  function Doubled(chunkBytes: nat): nat
    requires IsWord(chunkBytes)
  {
    var doubled := CheckedMul(chunkBytes, 2);
    Max(if doubled.Some? then doubled.value else MAX_WORD, chunkBytes)
  }

  lemma DoubledSize(chunkBytes: nat)
    requires IsWord(chunkBytes)
    ensures Doubled(chunkBytes) == (if IsWord(2 * chunkBytes) then 2 * chunkBytes else MAX_WORD)
    ensures IsWord(Doubled(chunkBytes))
  {
  }

  /** The request has a supported alignment and can be normalised. */
  predicate Servable(bytes: nat, alignment: nat)
    requires IsWord(bytes)
  {
    alignment <= RUN_ALIGNMENT && NormalizedRunBytes(Max(bytes, 1)).Some?
  }

  /** Every request up to 16 bytes of alignment and 32 bytes short of the word limit
      is tried; no other is. */
  lemma ServableMeans(bytes: nat, alignment: nat)
    requires IsWord(bytes)
    ensures Servable(bytes, alignment) <==> alignment <= 16 && bytes <= 0x1_0000_0000_0000_0000 - 32
    ensures NormalizedRunBytes(Max(bytes, 1)).Some? <==> bytes <= 0x1_0000_0000_0000_0000 - 32
  {
    NormalizedIsLeast(Max(bytes, 1));
    hide NormalizedRunBytes;
  }

  function RunBytesFor(bytes: nat): nat
    requires IsWord(bytes) && NormalizedRunBytes(Max(bytes, 1)).Some?
  {
    NormalizedRunBytes(Max(bytes, 1)).value
  }

  /** The request `expand` can meet for run `h`. */
  predicate Reaches(runs: Runs, h: Addr, bytes: nat)
    requires h in runs && IsWord(bytes)
  {
    || runs[h].size - HEADER_SIZE >= bytes
    || (&& NormalizedRunBytes(bytes).Some?
        && NextFree(runs, h)
        && runs[h].size + runs[h + runs[h].size].size >= NormalizedRunBytes(bytes).value)
  }

  /** The payload that run `h` can have without moving holds the request: its own, or
      that of the run and a free run behind it together. */
  predicate HoldsInPlace(runs: Runs, h: Addr, bytes: nat)
    requires h in runs
  {
    var n := h + runs[h].size;
    || bytes <= runs[h].size - 16
    || (n in runs && runs[n].free && bytes <= runs[h].size + runs[n].size - 16)
  }

  /** Rounding the request to a run size loses nothing. */
  lemma ReachesMeans(runs: Runs, chunks: set<Chunk>, h: Addr, bytes: nat)
    requires Tiled(runs, chunks) && h in runs && IsWord(bytes)
    ensures Reaches(runs, h, bytes) <==> HoldsInPlace(runs, h, bytes)
  {
    NormalizedIsLeast(bytes);
    var n := h + runs[h].size;
    assert RunOk(runs, chunks, h);
    if n in runs {
      assert RunOk(runs, chunks, n);
      LegalSum(runs[h].size, runs[n].size);
      PairInWord(runs, chunks, h);
      ModOfProduct(0x1000_0000_0000_0000, 0, 16);
    }
    hide NormalizedRunBytes, RunOk, Tiled, Disjoint;
  }

  lemma PairInWord(runs: Runs, chunks: set<Chunk>, h: Addr)
    requires Tiled(runs, chunks) && h in runs && h + runs[h].size in runs
    ensures runs[h].size + runs[h + runs[h].size].size <= WORD_LIMIT - 32
  {
    var n := h + runs[h].size;
    assert RunOk(runs, chunks, h) && RunOk(runs, chunks, n);
    assert ChunkOk(runs[n].home) && ChunkOk(runs[h].home);
  }

  /** No free run is large enough. */
  ghost predicate NoFit(runs: Runs, needed: nat) {
    forall x :: x in Free(runs) ==> Free(runs)[x] < needed
  }

  // ---------- the free lists ----------

  function Without(s: seq<Addr>, h: Addr): seq<Addr> {
    if s == [] then [] else if s[0] == h then s[1..] else [s[0]] + Without(s[1..], h)
  }

  lemma {:induction false} WithoutAt(s: seq<Addr>, k: nat)
    requires k < |s| && Distinct(s)
    ensures Without(s, s[k]) == s[..k] + s[k + 1..]
  {
    if k == 0 {
      assert s[..0] + s[1..] == s[1..];
    } else {
      assert s[0] != s[k] && s[1..][k - 1] == s[k];
      WithoutAt(s[1..], k - 1);
      assert [s[0]] + (s[1..][..k - 1] + s[1..][k..]) == s[..k] + s[k + 1..];
    }
  }

  /** A run enters at the head of the list of its bin. */
  function ListsWith(lists: seq<seq<Addr>>, size: nat, h: Addr): seq<seq<Addr>> {
    var i := BinIndex(size);
    if 0 <= i < |lists| then lists[i := [h] + lists[i]] else lists
  }

  function ListsWithout(lists: seq<seq<Addr>>, size: nat, h: Addr): seq<seq<Addr>> {
    var i := BinIndex(size);
    if 0 <= i < |lists| then lists[i := Without(lists[i], h)] else lists
  }

  /** The free neighbours of `h` leave: first the one behind, then the one before. */
  function AbsorbedLists(runs: Runs, lists: seq<seq<Addr>>, h: Addr): seq<seq<Addr>>
    requires h in runs
  {
    var n, p := h + runs[h].size, h - runs[h].back;
    var behind := if NextFree(runs, h) then ListsWithout(lists, runs[n].size, n) else lists;
    if PrevFree(runs, h) then ListsWithout(behind, runs[h].back, p) else behind
  }

  function FreedLists(runs: Runs, lists: seq<seq<Addr>>, h: Addr): seq<seq<Addr>>
    requires h in runs
  {
    ListsWith(AbsorbedLists(runs, lists, h), ReleasedSize(runs, h), ReleasedAt(runs, h))
  }

  // What is cut off a run of `total` bytes at `h` enters the lists.
  function CutLists(lists: seq<seq<Addr>>, h: Addr, total: nat, needed: nat): seq<seq<Addr>>
    requires needed <= total
  {
    if Splits(total, needed) then ListsWith(lists, total - needed, h + needed) else lists
  }

  function ReplayedLists(runs: Runs, lists: seq<seq<Addr>>, hs: seq<Addr>): seq<seq<Addr>>
    decreases |hs|
  {
    if hs == [] || hs[0] !in runs then lists
    else ReplayedLists(Release(runs, hs[0]), FreedLists(runs, lists, hs[0]), hs[1..])
  }

  // ---------- the search ----------

  /** The first run of a list that is large enough, or null. */
  function FirstFit(runs: Runs, s: seq<Addr>, needed: nat): Addr {
    if s == [] then 0 else if s[0] in runs && runs[s[0]].size >= needed then s[0] else FirstFit(runs, s[1..], needed)
  }

  /** ... of the lowest bin from `from` on that has one. */
  function BestFit(runs: Runs, lists: seq<seq<Addr>>, needed: nat, from: nat): Addr
    decreases |lists| - from
  {
    if from >= |lists| then 0 else
    var h := FirstFit(runs, lists[from], needed);
    if h != 0 then h else BestFit(runs, lists, needed, from + 1)
  }

  function StartBin(needed: nat): nat {
    if BinIndex(needed) < 0 then 0 else BinIndex(needed)
  }

  function Search(c: Core, needed: nat): Addr {
    BestFit(c.runs, c.lists, needed, StartBin(needed))
  }

  // ---------- the steps ----------

  function Freed(c: Core, p: Addr): Core {
    var h := p - HEADER_SIZE;
    if p == 0 || h !in c.runs then c
    else c.(runs := Release(c.runs, h), lists := FreedLists(c.runs, c.lists, h))
  }

  function Parked(c: Core, p: Addr): Core {
    c.(parked := [p - HEADER_SIZE] + c.parked)
  }

  function Drained(c: Core): Core {
    c.(runs := ReleaseAll(c.runs, c.parked), lists := ReplayedLists(c.runs, c.lists, c.parked), parked := [])
  }

  function Carved(c: Core, h: Addr, needed: nat): Core
    requires h in c.runs && needed <= c.runs[h].size
  {
    var size := c.runs[h].size;
    c.(runs := Carve(c.runs, h, needed), lists := CutLists(ListsWithout(c.lists, size, h), h, size, needed))
  }

  function Stretched(c: Core, h: Addr, needed: nat): Core
    requires h in c.runs && NextFree(c.runs, h) && needed <= c.runs[h].size + c.runs[h + c.runs[h].size].size
  {
    var n := h + c.runs[h].size;
    var total := c.runs[h].size + c.runs[n].size;
    c.(runs := Stretch(c.runs, h, needed), lists := CutLists(ListsWithout(c.lists, c.runs[n].size, n), h, total,
          needed))
  }

  function Expanded(c: Core, p: Addr, bytes: nat): (Core, int)
    requires IsWord(bytes)
  {
    var h := p - HEADER_SIZE;
    if p == 0 || h !in c.runs then (c, 0)
    else if c.runs[h].size - HEADER_SIZE >= bytes || !Reaches(c.runs, h, bytes) then (c, c.runs[h].size - HEADER_SIZE)
    else
      var needed := NormalizedRunBytes(bytes).value;
      var total := c.runs[h].size + c.runs[h + c.runs[h].size].size;
      (Stretched(c, h, needed), GrantedSize(total, needed) - HEADER_SIZE)
  }

  /** A request for a chunk fails: its rounding overflows, or the system refuses. */
  predicate Refused(site: Site, k: nat, bytes: nat)
    requires IsWord(site.granularity) && IsWord(bytes)
  {
    var n := OwnedChunkBytes(bytes, site.granularity);
    n.None? || site.system(k, n.value).None?
  }

  /** The deferred first chunk cannot be had. */
  predicate FirstRefused(site: Site, c: Core)
    requires WordsOk(site, c)
  {
    c.deferred != 0 && Refused(site, c.calls, c.deferred)
  }

  /** ... or can, but its one run is below the need. */
  predicate FirstTooSmall(site: Site, c: Core, needed: nat)
    requires WordsOk(site, c)
  {
    c.deferred != 0 && !Refused(site, c.calls, c.deferred)
    && OwnedChunkBytes(c.deferred, site.granularity).value < needed + EPILOGUE_SIZE
  }

  /** A request that nothing owned can serve makes the runner grow ... */
  predicate MustGrow(site: Site, c: Core, needed: nat)
    requires WordsOk(site, c)
  {
    site.canGrow && (c.deferred == 0 || FirstTooSmall(site, c, needed))
  }

  /** ... and that fails. */
  predicate CannotGrow(site: Site, c: Core, needed: nat)
    requires WordsOk(site, c)
  {
    if FirstTooSmall(site, c, needed)
    then GrowRefused(site, c.calls + 1, OwnedChunkBytes(c.deferred, site.granularity).value, needed)
    else GrowRefused(site, c.calls, c.nextGrowth, needed)
  }

  /** Nothing owned can serve the request, not even with the parked runs freed. */
  ghost predicate Stuck(c: Core, needed: nat) {
    NoFit(c.runs, needed) && NoFit(ReleaseAll(c.runs, c.parked), needed)
  }

  /** An exception ends the search exactly if memory is needed and not to be had. */
  ghost predicate Throws(site: Site, c: Core, needed: nat)
    requires WordsOk(site, c)
  {
    Stuck(c, needed) && (FirstRefused(site, c) || (MustGrow(site, c, needed) && CannotGrow(site, c, needed)))
  }

  /** The search ends with null exactly if it needs to grow and may not. */
  ghost predicate Exhausted(site: Site, c: Core, needed: nat)
    requires WordsOk(site, c)
  {
    Stuck(c, needed) && !site.canGrow && (c.deferred == 0 || FirstTooSmall(site, c, needed))
  }

  lemma ExhaustedIsFixed(site: Site, c: Core, needed: nat)
    requires WordsOk(site, c)
    ensures Exhausted(site, c, needed) ==> !site.canGrow
  {
  }

  /** The chunks it brings: the deferred one, and one grow if that is not enough. */
  ghost function Brought(site: Site, c: Core, needed: nat): nat
    requires WordsOk(site, c)
  {
    if !Stuck(c, needed) then 0 else
    (if c.deferred != 0 && !FirstRefused(site, c) then 1 else 0)
    + (if MustGrow(site, c, needed) && !CannotGrow(site, c, needed) then 1 else 0)
  }

  function AddedChunk(site: Site, c: Core, bytes: nat): (r: (Core, bool))
    requires WordsOk(site, c) && IsWord(bytes)
    ensures WordsOk(site, r.0) && (r.1 <==> !Refused(site, c.calls, bytes))
    ensures r.1 ==> r.0.chunks != [] && IsWord(r.0.chunks[0].bytes)
  {
    var n := OwnedChunkBytes(bytes, site.granularity);
    if n.None? then (c, false) else
    var arena := site.system(c.calls, n.value);
    var asked := c.(calls := c.calls + 1);
    if arena.None? then (asked, false) else
    var chunk := Chunk(arena.value.base, n.value);
    (asked.(runs := WithChunk(c.runs, chunk), lists := ListsWith(c.lists, chunk.bytes - EPILOGUE_SIZE, chunk.begin),
          chunks := [chunk] + c.chunks), true)
  }

  function FirstChunked(site: Site, c: Core, bytes: nat): (r: (Core, bool))
    requires WordsOk(site, c) && IsWord(bytes)
    ensures WordsOk(site, r.0)
  {
    var a := AddedChunk(site, c, bytes);
    if a.1 then (a.0.(nextGrowth := a.0.chunks[0].bytes, deferred := 0), true) else a
  }

  predicate GrowRefused(site: Site, k: nat, nextGrowth: nat, needed: nat)
    requires IsWord(site.granularity) && IsWord(nextGrowth)
  {
    !IsWord(needed + MIN_CHUNK) || Refused(site, k, Max(nextGrowth, needed + MIN_CHUNK))
  }

  /** What a grow asks for, and when it fails: the need with 64 bytes of overhead, or the
      planned growth if that is more, in whole pages; it fails exactly if one of these
      sums is no word or the system refuses the request. */
  lemma GrowRefusedMeans(site: Site, k: nat, nextGrowth: nat, needed: nat)
    requires IsWord(site.granularity) && IsWord(nextGrowth) && site.granularity > 0
    ensures GrowRefused(site, k, nextGrowth, needed) <==>
              || needed + 64 >= 0x1_0000_0000_0000_0000
              || forall n: nat :: LeastMultipleFrom(n, Max(nextGrowth, needed + 64), site.granularity) ==>
                   n >= 0x1_0000_0000_0000_0000 || site.system(k, n).None?
    ensures !GrowRefused(site, k, nextGrowth, needed) ==>
              var asked := Max(nextGrowth, needed + 64);
              && IsWord(asked) && OwnedChunkBytes(asked, site.granularity).Some?
              && LeastMultipleFrom(OwnedChunkBytes(asked, site.granularity).value, asked, site.granularity)
  {
    if IsWord(needed + 64) {
      var asked := Max(nextGrowth, needed + 64);
      RoundedUp(asked, site.granularity);
      var n := if asked % site.granularity == 0 then asked
               else asked + (site.granularity - asked % site.granularity);
      LeastMultipleUnique(n, asked, site.granularity);
    }
  }

  function Grown(site: Site, c: Core, needed: nat): (r: (Core, bool))
    requires WordsOk(site, c) && IsWord(needed)
    ensures WordsOk(site, r.0) && (r.1 <==> !GrowRefused(site, c.calls, c.nextGrowth, needed))
  {
    if !IsWord(needed + MIN_CHUNK) then (c, false) else
    var a := AddedChunk(site, c, Max(c.nextGrowth, needed + MIN_CHUNK));
    if a.1 then DoubledSize(a.0.chunks[0].bytes); (a.0.(nextGrowth := Doubled(a.0.chunks[0].bytes)), true) else a
  }

  /** The search of `allocate_bytes`: the heap as it is, the heap with the parked runs
      freed, the deferred first chunk, one grow. The answer is a free run or null, and
      whether an exception ends it. */
  function Found(site: Site, c: Core, needed: nat): (r: (Core, Addr, bool))
    requires WordsOk(site, c) && IsWord(needed)
    ensures WordsOk(site, r.0)
  {
    var h := Search(c, needed);
    if h != 0 then (c, h, false) else
    var d := Drained(c);
    var h1 := Search(d, needed);
    if h1 != 0 then (d, h1, false) else
    if d.deferred == 0 then FoundByGrowing(site, d, needed) else
    var f := FirstChunked(site, d, d.deferred);
    if !f.1 then (f.0, 0, true) else
    var h2 := Search(f.0, needed);
    if h2 != 0 then (f.0, h2, false) else FoundByGrowing(site, f.0, needed)
  }

  function FoundByGrowing(site: Site, c: Core, needed: nat): (r: (Core, Addr, bool))
    requires WordsOk(site, c) && IsWord(needed)
    ensures WordsOk(site, r.0)
  {
    if !site.canGrow then (c, 0, false) else
    var g := Grown(site, c, needed);
    if g.1 then (g.0, Search(g.0, needed), false) else (g.0, 0, true)
  }

  function Allocated(site: Site, c: Core, bytes: nat, alignment: nat): (r: (Core, Outcome))
    requires WordsOk(site, c) && IsWord(bytes)
    ensures WordsOk(site, r.0)
  {
    if !Servable(bytes, alignment) then (c, Null) else
    NormalizedIsLeast(Max(bytes, 1));
    var needed := RunBytesFor(bytes);
    var f := Found(site, c, needed);
    if f.2 then (f.0, BadAlloc) else
    if f.1 == 0 then (f.0, Null) else
    if f.1 in f.0.runs && needed <= f.0.runs[f.1].size then (Carved(f.0, f.1, needed),
        Got(f.1 + HEADER_SIZE)) else (f.0, Null)
  }

  /** An alignment decides only whether a request is tried: up to 16 bytes it makes no
      difference, and beyond that the answer is null and nothing happens. */
  lemma AlignmentOnlyRefuses(site: Site, c: Core, bytes: nat, alignment: nat)
    requires WordsOk(site, c) && IsWord(bytes)
    ensures alignment <= 16 ==> Allocated(site, c, bytes, alignment) == Allocated(site, c, bytes, 1)
    ensures alignment > 16 ==> Allocated(site, c, bytes, alignment) == (c, Null)
  {
    hide Found, NormalizedRunBytes, RunBytesFor;
  }

  // ---------- whole sequences of operations ----------

  datatype Op = Allocate(bytes: nat, alignment: nat) | Deallocate(p: Addr) | Expand(p: Addr,
            bytes: nat) | Push(p: Addr) | Drain

  datatype Answer = Allotted(out: Outcome) | Payload(bytes: int) | Done

  /** The payload belongs to a run that is allocated and not parked. */
  predicate Holds(c: Core, p: Addr) {
    p - HEADER_SIZE in c.runs && !c.runs[p - HEADER_SIZE].free && p - HEADER_SIZE !in c.parked
  }

  predicate WordOp(op: Op) {
    match op
    case Allocate(bytes, _) => IsWord(bytes)
    case Expand(_, bytes) => IsWord(bytes)
    case _ => true
  }

  /** One operation; a payload that its caller does not hold is no business of the
      runner, and nothing happens. */
  function Perform(site: Site, c: Core, op: Op): (r: (Core, Answer))
    requires WordsOk(site, c) && WordOp(op)
    ensures WordsOk(site, r.0)
  {
    match op
    case Allocate(bytes, alignment) => var a := Allocated(site, c, bytes, alignment); (a.0, Allotted(a.1))
    case Deallocate(p) => (if Holds(c, p) then Freed(c, p) else c, Done)
    case Expand(p, bytes) => if Holds(c, p) then var e := Expanded(c, p, bytes); (e.0, Payload(e.1)) else (c,
        Payload(0))
    case Push(p) => (if Holds(c, p) then Parked(c, p) else c, Done)
    case Drain => (Drained(c), Done)
  }

  function After(site: Site, c: Core, ops: seq<Op>): (r: Core)
    requires WordsOk(site, c) && forall op :: op in ops ==> WordOp(op)
    ensures WordsOk(site, r)
    decreases |ops|
  {
    if ops == [] then c else After(site, Perform(site, c, ops[0]).0, ops[1..])
  }

  function Answers(site: Site, c: Core, ops: seq<Op>): seq<Answer>
    requires WordsOk(site, c) && forall op :: op in ops ==> WordOp(op)
    decreases |ops|
  {
    if ops == [] then [] else [Perform(site, c, ops[0]).1] + Answers(site, Perform(site, c, ops[0]).0, ops[1..])
  }

  lemma {:induction false} AfterThen(site: Site, c: Core, ops: seq<Op>, more: seq<Op>)
    requires WordsOk(site, c) && (forall x :: x in ops ==> WordOp(x)) && forall x :: x in more ==> WordOp(x)
    ensures forall x :: x in ops + more ==> WordOp(x)
    ensures After(site, c, ops + more) == After(site, After(site, c, ops), more)
    decreases |ops|
  {
    hide Perform;
    if ops == [] {
      assert ops + more == more;
    } else {
      assert forall x :: x in ops[1..] ==> x in ops;
      assert (ops + more)[0] == ops[0] && (ops + more)[1..] == ops[1..] + more;
      AfterThen(site, Perform(site, c, ops[0]).0, ops[1..], more);
    }
  }

  lemma AfterOneMore(site: Site, c: Core, ops: seq<Op>, op: Op)
    requires WordsOk(site, c) && WordOp(op) && forall x :: x in ops ==> WordOp(x)
    ensures forall x :: x in ops + [op] ==> WordOp(x)
    ensures After(site, c, ops + [op]) == Perform(site, After(site, c, ops), op).0
  {
    hide Perform;
    AfterThen(site, c, ops, [op]);
    assert [op][1..] == [];
  }

  /** Frees, one after the other. */
  function Frees(ps: seq<Addr>): (r: seq<Op>)
    ensures forall op :: op in r ==> WordOp(op)
  {
    seq(|ps|, i requires 0 <= i < |ps| => Deallocate(ps[i]))
  }

  // ---------- growth ----------

  /** Bytes of all chunks together. */
  function Owned(chunks: seq<Chunk>): nat {
    if chunks == [] then 0 else chunks[0].bytes + Owned(chunks[1..])
  }

  /** Each chunk is at least as large as all that came before it together; the latest
      comes first. */
  predicate Geometric(chunks: seq<Chunk>) {
    |chunks| <= 1 || (chunks[0].bytes >= Owned(chunks[1..]) && Geometric(chunks[1..]))
  }

  /** The next grow asks for at least as much as is owned, or for an amount that cannot be
      had. A chunk is deferred exactly until there is one. */
  predicate GrowthSound(chunks: seq<Chunk>, nextGrowth: nat, deferred: nat) {
    && (deferred == 0 <==> chunks != [])
    && Geometric(chunks)
    && (chunks != [] ==> nextGrowth >= Owned(chunks) || nextGrowth == MAX_WORD)
  }

  predicate GrowthCore(c: Core) {
    GrowthSound(c.chunks, c.nextGrowth, c.deferred)
  }

  lemma {:induction false} GeometricDoubles(chunks: seq<Chunk>)
    requires Geometric(chunks) && chunks != []
    ensures Owned(chunks) >= chunks[|chunks| - 1].bytes * Pow2(|chunks| - 1)
  {
    if |chunks| == 1 {
      assert Owned(chunks[1..]) == 0 && Pow2(0) == 1;
    } else {
      GeometricDoubles(chunks[1..]);
      var oldest, k := chunks[|chunks| - 1].bytes, |chunks| - 2;
      assert oldest * Pow2(k + 1) == 2 * (oldest * Pow2(k));
    }
  }

  predicate Requestable(bytes: nat) {
    bytes >= MIN_CHUNK && bytes % RUN_ALIGNMENT == 0
  }

  lemma ChunkBytesLegal(bytes: nat, granularity: nat)
    requires IsWord(bytes) && IsWord(granularity) && granularity > 0 && granularity % RUN_ALIGNMENT == 0
    ensures OwnedChunkBytes(bytes, granularity).Some? ==>
              var n := OwnedChunkBytes(bytes, granularity).value;
              Requestable(n) && n >= Max(bytes, MIN_CHUNK) && IsWord(n)
  {
    var n := OwnedChunkBytes(bytes, granularity);
    if n.Some? {
      MultipleOfMultiple(n.value, granularity, RUN_ALIGNMENT);
    }
  }

  lemma MultipleOfMultiple(n: nat, g: nat, d: nat)
    requires g > 0 && d > 0 && n % g == 0 && g % d == 0
    ensures n % d == 0
  {
    var q, k := n / g, g / d;
    assert n == q * g && g == k * d;
    assert n == (q * k) * d + 0 by {
      assert q * (k * d) == (q * k) * d;
    }
    ModOfProduct(q * k, 0, d);
  }

  /** After saturation no grow succeeds: rounding the largest word up overflows. */
  lemma SaturatedGrowthFails(granularity: nat, bytes: nat)
    requires IsWord(granularity) && granularity > 0 && granularity % RUN_ALIGNMENT == 0 && IsWord(bytes)
    ensures bytes == MAX_WORD ==> OwnedChunkBytes(bytes, granularity).None?
  {
    if bytes == MAX_WORD && OwnedChunkBytes(bytes, granularity).Some? {
      ChunkBytesLegal(bytes, granularity);
    }
  }

  predicate PagesOk(site: Site) {
    IsWord(site.granularity) && site.granularity > 0 && site.granularity % RUN_ALIGNMENT == 0
  }

  /** The chunk is what the system answered to one of the calls lo, ..., hi - 1. */
  ghost predicate FromSystem(site: Site, lo: nat, hi: nat, c: Chunk) {
    exists k: nat, n: nat ::
      lo <= k < hi && Requestable(n) && site.system(k, n).Some? && c == Chunk(site.system(k, n).value.base, n)
  }

  /** No chunk goes, and new ones come from the system, by calls made meanwhile. */
  ghost predicate ChunksFrom(site: Site, c: Core, c': Core) {
    && c.calls <= c'.calls && |c.chunks| <= |c'.chunks|
    && var n := |c'.chunks| - |c.chunks|;
       && c'.chunks[n..] == c.chunks
       && forall i :: 0 <= i < n ==> FromSystem(site, c.calls, c'.calls, c'.chunks[i])
  }

  lemma SameChunks(site: Site, c: Core, c': Core)
    requires c'.chunks == c.chunks && c'.calls >= c.calls
    ensures ChunksFrom(site, c, c')
  {
  }

  lemma ChunksTwice(site: Site, c: Core, d: Core, e: Core)
    requires ChunksFrom(site, c, d) && ChunksFrom(site, d, e)
    ensures ChunksFrom(site, c, e)
  {
    var n, k := |e.chunks| - |c.chunks|, |e.chunks| - |d.chunks|;
    forall i | 0 <= i < n
      ensures FromSystem(site, c.calls, e.calls, e.chunks[i])
    {
      if i < k {
        assert FromSystem(site, d.calls, e.calls, e.chunks[i]);
      } else {
        assert e.chunks[i] == e.chunks[k..][i - k] == d.chunks[i - k];
        assert FromSystem(site, c.calls, d.calls, d.chunks[i - k]);
      }
    }
    assert e.chunks[n..] == e.chunks[k..][n - k..];
  }

  lemma AddedFrom(site: Site, c: Core, bytes: nat)
    requires WordsOk(site, c) && PagesOk(site) && IsWord(bytes)
    ensures var a := AddedChunk(site, c, bytes);
            && ChunksFrom(site, c, a.0) && a.0.deferred == c.deferred && a.0.nextGrowth == c.nextGrowth
            && (!a.1 ==> a.0.chunks == c.chunks)
            && (a.1 ==> |a.0.chunks| == |c.chunks| + 1 && a.0.chunks[1..] == c.chunks && a.0.chunks[0].bytes >= Max(bytes, MIN_CHUNK))
  {
    hide ListsWith, WithChunk;
    ChunkBytesLegal(bytes, site.granularity);
    var a, n := AddedChunk(site, c, bytes), OwnedChunkBytes(bytes, site.granularity);
    hide OwnedChunkBytes;
    if a.1 {
      assert Requestable(n.value) && site.system(c.calls, n.value).Some?;
      assert FromSystem(site, c.calls, c.calls + 1, a.0.chunks[0]);
    }
  }

  lemma FirstFrom(site: Site, c: Core, bytes: nat)
    requires WordsOk(site, c) && PagesOk(site) && IsWord(bytes)
    ensures ChunksFrom(site, c, FirstChunked(site, c, bytes).0)
  {
    AddedFrom(site, c, bytes);
    hide AddedChunk;
  }

  lemma ByGrowingFrom(site: Site, c: Core, needed: nat)
    requires WordsOk(site, c) && PagesOk(site) && IsWord(needed)
    ensures ChunksFrom(site, c, Grown(site, c, needed).0) && ChunksFrom(site, c, FoundByGrowing(site, c, needed).0)
  {
    hide Search, OwnedChunkBytes, Doubled;
    SameChunks(site, c, c);
    if IsWord(needed + MIN_CHUNK) {
      AddedFrom(site, c, Max(c.nextGrowth, needed + MIN_CHUNK));
    }
    hide AddedChunk;
  }

  lemma FoundFrom(site: Site, c: Core, needed: nat)
    requires WordsOk(site, c) && PagesOk(site) && IsWord(needed)
    ensures ChunksFrom(site, c, Found(site, c, needed).0)
  {
    hide Search, ChunksFrom, FirstChunked, FoundByGrowing, ReleaseAll, ReplayedLists;
    var d := Drained(c);
    var f := FirstChunked(site, d, d.deferred);
    SameChunks(site, c, c);
    SameChunks(site, c, d);
    ByGrowingFrom(site, d, needed);
    ChunksTwice(site, c, d, FoundByGrowing(site, d, needed).0);
    FirstFrom(site, d, d.deferred);
    ChunksTwice(site, c, d, f.0);
    ByGrowingFrom(site, f.0, needed);
    ChunksTwice(site, c, f.0, FoundByGrowing(site, f.0, needed).0);
  }

  lemma AllocatedFrom(site: Site, c: Core, bytes: nat, alignment: nat)
    requires WordsOk(site, c) && PagesOk(site) && IsWord(bytes)
    ensures ChunksFrom(site, c, Allocated(site, c, bytes, alignment).0)
  {
    hide Found, NormalizedRunBytes, ChunksFrom, Carve, CutLists, ListsWithout;
    SameChunks(site, c, c);
    NormalizedIsLeast(Max(bytes, 1));
    if Servable(bytes, alignment) {
      var needed := RunBytesFor(bytes);
      FoundFrom(site, c, needed);
      var f := Found(site, c, needed);
      if f.1 in f.0.runs && needed <= f.0.runs[f.1].size {
        SameChunks(site, f.0, Carved(f.0, f.1, needed));
        ChunksTwice(site, c, f.0, Carved(f.0, f.1, needed));
      }
    }
  }

  lemma FirstGrows(site: Site, c: Core, bytes: nat)
    requires WordsOk(site, c) && PagesOk(site) && IsWord(bytes) && c.chunks == []
    ensures var a := FirstChunked(site, c, bytes);
            && (a.1 ==> GrowthCore(a.0) && a.0.deferred == 0)
            && (c.deferred != 0 ==> GrowthCore(a.0))
  {
    AddedFrom(site, c, bytes);
    hide AddedChunk;
    var a := FirstChunked(site, c, bytes).0;
    assert a.chunks != [] ==> Owned(a.chunks) == a.chunks[0].bytes + Owned(a.chunks[1..]);
  }

  lemma GrowGrows(site: Site, c: Core, needed: nat)
    requires WordsOk(site, c) && PagesOk(site) && IsWord(needed) && c.deferred == 0 && GrowthCore(c)
    ensures GrowthCore(Grown(site, c, needed).0) && GrowthCore(FoundByGrowing(site, c, needed).0)
  {
    hide Search;
    if IsWord(needed + MIN_CHUNK) {
      var bytes := Max(c.nextGrowth, needed + MIN_CHUNK);
      AddedFrom(site, c, bytes);
      SaturatedGrowthFails(site.granularity, bytes);
      var a := AddedChunk(site, c, bytes);
      if a.1 {
        DoubledSize(a.0.chunks[0].bytes);
      }
      hide AddedChunk, OwnedChunkBytes, Doubled;
    }
  }

  lemma NoChunkYet(c: Core)
    requires GrowthCore(c) && c.deferred != 0
    ensures c.chunks == []
  {
  }

  lemma FoundGrows(site: Site, c: Core, needed: nat)
    requires WordsOk(site, c) && PagesOk(site) && IsWord(needed) && GrowthCore(c)
    ensures GrowthCore(Found(site, c, needed).0)
  {
    hide Search, GrowthSound, FirstChunked, FoundByGrowing, ReleaseAll, ReplayedLists;
    var d := Drained(c);
    if d.deferred == 0 {
      GrowGrows(site, d, needed);
    } else {
      NoChunkYet(d);
      FirstGrows(site, d, d.deferred);
      var f := FirstChunked(site, d, d.deferred);
      if f.1 {
        GrowGrows(site, f.0, needed);
      }
    }
  }

  lemma AllocatedGrows(site: Site, c: Core, bytes: nat, alignment: nat)
    requires WordsOk(site, c) && PagesOk(site) && IsWord(bytes) && GrowthCore(c)
    ensures GrowthCore(Allocated(site, c, bytes, alignment).0)
  {
    hide Found, NormalizedRunBytes, Carve, CutLists, ListsWithout;
    NormalizedIsLeast(Max(bytes, 1));
    if Servable(bytes, alignment) {
      FoundGrows(site, c, RunBytesFor(bytes));
    }
  }

  /** Every operation keeps the growth sound and every chunk in its place. */
  lemma OpGrows(site: Site, c: Core, op: Op)
    requires WordsOk(site, c) && PagesOk(site) && WordOp(op) && GrowthCore(c)
    ensures ChunksFrom(site, c, Perform(site, c, op).0) && GrowthCore(Perform(site, c, op).0)
  {
    hide Found, NormalizedRunBytes, Carve, Release, Stretch, ReleaseAll, GrowthSound, ChunksFrom, Allocated;
    if op.Allocate? {
      AllocatedFrom(site, c, op.bytes, op.alignment);
      AllocatedGrows(site, c, op.bytes, op.alignment);
    } else {
      SameChunks(site, c, Perform(site, c, op).0);
    }
  }

  lemma {:induction false} GrowthKept(site: Site, c: Core, ops: seq<Op>)
    requires WordsOk(site, c) && PagesOk(site) && GrowthCore(c) && forall op :: op in ops ==> WordOp(op)
    ensures ChunksFrom(site, c, After(site, c, ops)) && GrowthCore(After(site, c, ops))
    decreases |ops|
  {
    hide Perform, GrowthCore, ChunksFrom;
    if ops == [] {
      SameChunks(site, c, c);
    } else {
      var d := Perform(site, c, ops[0]).0;
      assert ops[0] in ops;
      assert forall op :: op in ops[1..] ==> op in ops;
      OpGrows(site, c, ops[0]);
      GrowthKept(site, d, ops[1..]);
      ChunksTwice(site, c, d, After(site, d, ops[1..]));
    }
  }

  lemma StartsSound(site: Site, initialBytes: nat)
    requires PagesOk(site) && IsWord(initialBytes)
    ensures GrowthCore(LazyCore(initialBytes))
    ensures var eager := EagerCore(site, initialBytes); eager.1 ==> GrowthCore(eager.0) && eager.0.chunks != []
  {
    FirstGrows(site, Empty(initialBytes, 0), initialBytes);
    hide FirstChunked;
  }

  lemma SoundDoubles(c: Core)
    requires GrowthCore(c)
    ensures c.chunks != [] ==> Owned(c.chunks) >= c.chunks[|c.chunks| - 1].bytes * Pow2(|c.chunks| - 1)
  {
    if c.chunks != [] {
      GeometricDoubles(c.chunks);
    }
  }

  lemma StillThere(site: Site, c: Core, c': Core)
    requires ChunksFrom(site, c, c')
    ensures c.chunks != [] ==> c'.chunks != []
  {
  }

  /** Growth is geometric over every sequence of operations: a runner that has n chunks
      owns at least its oldest chunk doubled n - 1 times, whether it was made lazily or
      eagerly, and however its allocations, frees and grows came. */
  lemma OwnedDoubles(site: Site, initialBytes: nat, ops: seq<Op>)
    requires PagesOk(site) && IsWord(initialBytes) && forall op :: op in ops ==> WordOp(op)
    ensures var c := After(site, LazyCore(initialBytes), ops).chunks;
            c != [] ==> Owned(c) >= c[|c| - 1].bytes * Pow2(|c| - 1)
    ensures EagerCore(site, initialBytes).1 ==>
              var c := After(site, EagerCore(site, initialBytes).0, ops).chunks;
              c != [] && Owned(c) >= c[|c| - 1].bytes * Pow2(|c| - 1)
  {
    hide After, FirstChunked, GrowthCore;
    var lazy, eager := LazyCore(initialBytes), EagerCore(site, initialBytes);
    StartsSound(site, initialBytes);
    GrowthKept(site, lazy, ops);
    SoundDoubles(After(site, lazy, ops));
    if eager.1 {
      GrowthKept(site, eager.0, ops);
      SoundDoubles(After(site, eager.0, ops));
      StillThere(site, eager.0, After(site, eager.0, ops));
    }
  }

  // ---------- lazy and eager construction ----------

  function Empty(initialBytes: nat, deferred: nat): Core {
    Core(map[], seq(BIN_COUNT, _ => []), [], [], Max(initialBytes, 65536), deferred, 0)
  }

  /** What the lazy constructor makes. */
  function LazyCore(initialBytes: nat): Core {
    Empty(initialBytes, Max(initialBytes, 1))
  }

  /** What the eager constructor makes; false where it throws. */
  function EagerCore(site: Site, initialBytes: nat): (Core, bool)
    requires IsWord(site.granularity) && IsWord(initialBytes)
  {
    FirstChunked(site, Empty(initialBytes, 0), initialBytes)
  }

  // The lazy constructor's clamp to one byte does not change the first chunk.
  lemma SameFirstChunk(initialBytes: nat, granularity: nat)
    requires IsWord(initialBytes) && IsWord(granularity)
    ensures OwnedChunkBytes(Max(initialBytes, 1), granularity) == OwnedChunkBytes(initialBytes, granularity)
  {
  }

  lemma {:induction false} NothingFits(runs: Runs, lists: seq<seq<Addr>>, needed: nat, from: nat)
    requires forall i :: 0 <= i < |lists| ==> lists[i] == []
    ensures BestFit(runs, lists, needed, from) == 0
    decreases |lists| - from
  {
    if from >= |lists| {
    } else {
      NothingFits(runs, lists, needed, from + 1);
    }
  }

  // The first allocation that can be served brings the first chunk, and goes on as if
  // it had been there.
  lemma FirstAllocation(site: Site, initialBytes: nat, bytes: nat, alignment: nat)
    requires IsWord(site.granularity) && IsWord(initialBytes) && IsWord(bytes) && EagerCore(site, initialBytes).1
    requires Servable(bytes, alignment)
    ensures WordsOk(site, LazyCore(initialBytes)) && WordsOk(site, EagerCore(site, initialBytes).0)
    ensures Allocated(site, LazyCore(initialBytes), bytes, alignment) ==
              Allocated(site, EagerCore(site, initialBytes).0, bytes, alignment)
  {
    hide OwnedChunkBytes, BinIndex, NormalizedRunBytes, ListsWith, Carve, Doubled, BestFit, FirstFit;
    var lazy, eager := LazyCore(initialBytes), EagerCore(site, initialBytes).0;
    var needed := RunBytesFor(bytes);
    NormalizedIsLeast(Max(bytes, 1));
    SameFirstChunk(initialBytes, site.granularity);
    NothingFits(lazy.runs, lazy.lists, needed, StartBin(needed));
    assert Drained(lazy) == lazy;
    assert FirstChunked(site, lazy, lazy.deferred) == (eager, true);
    assert Drained(eager) == eager;
    assert Found(site, lazy, needed) == Found(site, eager, needed);
  }

  /** Lazy equals eager: over every sequence of operations, a runner constructed lazily
      answers exactly as one constructed eagerly over the same system, and once some
      allocation could be served, both are in the same state. */
  lemma {:induction false} LazyEqualsEager(site: Site, initialBytes: nat, ops: seq<Op>)
    requires IsWord(site.granularity) && IsWord(initialBytes) && EagerCore(site, initialBytes).1
    requires forall op :: op in ops ==> WordOp(op)
    ensures WordsOk(site, LazyCore(initialBytes)) && WordsOk(site, EagerCore(site, initialBytes).0)
    ensures Answers(site, LazyCore(initialBytes), ops) == Answers(site, EagerCore(site, initialBytes).0, ops)
    ensures (exists op :: op in ops && op.Allocate? && Servable(op.bytes, op.alignment)) ==>
              After(site, LazyCore(initialBytes), ops) == After(site, EagerCore(site, initialBytes).0, ops)
    decreases |ops|
  {
    hide OwnedChunkBytes, Allocated, Found, FirstChunked, Servable, NormalizedRunBytes;
    var lazy, eager := LazyCore(initialBytes), EagerCore(site, initialBytes).0;
    if ops == [] {
    } else {
      var op := ops[0];
      assert op in ops;
      assert forall x :: x in ops[1..] ==> x in ops;
      if op.Allocate? && Servable(op.bytes, op.alignment) {
        FirstAllocation(site, initialBytes, op.bytes, op.alignment);
      } else {
        NothingYet(site, initialBytes, op);
        LazyEqualsEager(site, initialBytes, ops[1..]);
        assert forall x :: x in ops ==> x == op || x in ops[1..];
      }
    }
  }

  /** Where the eager constructor throws, the lazy runner throws at its first allocation
      that can be served. */
  lemma LazyThrowsLater(site: Site, initialBytes: nat, bytes: nat, alignment: nat)
    requires IsWord(site.granularity) && IsWord(initialBytes) && IsWord(bytes) && Servable(bytes, alignment)
    requires !EagerCore(site, initialBytes).1
    ensures WordsOk(site, LazyCore(initialBytes))
    ensures Allocated(site, LazyCore(initialBytes), bytes, alignment).1 == BadAlloc
  {
    hide OwnedChunkBytes, BinIndex, NormalizedRunBytes, ListsWith, Doubled, BestFit, FirstFit;
    var lazy := LazyCore(initialBytes);
    var needed := RunBytesFor(bytes);
    NormalizedIsLeast(Max(bytes, 1));
    SameFirstChunk(initialBytes, site.granularity);
    NothingFits(lazy.runs, lazy.lists, needed, StartBin(needed));
    assert Drained(lazy) == lazy;
  }

  // Before that, there is nothing to operate on.
  lemma NothingYet(site: Site, initialBytes: nat, op: Op)
    requires IsWord(site.granularity) && IsWord(initialBytes) && EagerCore(site, initialBytes).1 && WordOp(op)
    requires op.Allocate? ==> !Servable(op.bytes, op.alignment)
    ensures WordsOk(site, LazyCore(initialBytes)) && WordsOk(site, EagerCore(site, initialBytes).0)
    ensures Perform(site, LazyCore(initialBytes), op).0 == LazyCore(initialBytes)
    ensures Perform(site, EagerCore(site, initialBytes).0, op).0 == EagerCore(site, initialBytes).0
    ensures Perform(site, LazyCore(initialBytes), op).1 == Perform(site, EagerCore(site, initialBytes).0, op).1
  {
    hide OwnedChunkBytes, NormalizedRunBytes, ListsWith;
    var eager := EagerCore(site, initialBytes).0;
    assert forall h :: h in eager.runs ==> eager.runs[h].free;
    assert Drained(eager) == eager && Drained(LazyCore(initialBytes)) == LazyCore(initialBytes);
  }
}
