/** The node pool as a function of what it knows: every operation as a step from one
    value to the next, with the answer it gives. The class in Pool is proved to take
    these very steps; here is what they mean together. */
module PoolState {
  import opened Words
  import opened BinMask
  import opened Granules

  /** A chunk with `count` seeded slots. */
  datatype Slots = Slots(base: nat, count: nat)

  /** The answer to the k-th request for a number of bytes: the base of a region, or
      failure. Calls into the operating system are not part of this model. */
  type Source = (nat, nat) -> Option<nat>

  /** What never changes about a pool. */
  datatype Site = Site(grid: Grid, dynamic: bool, source: Source)

  /** What a pool knows. */
  datatype Core = Core(
    chunks: seq<Slots>,
    free: seq<Addr>,
    parked: seq<Addr>,
    held: set<Addr>,
    size: nat,
    capacity: nat,
    nextGrowth: nat,
    calls: nat)

  /** What `allocate` answers: null, an exception, or a node. */
  datatype Outcome = Null | BadAlloc | Got(n: Addr)

  ghost predicate SiteOk(site: Site) {
    site.grid.Ok() && IsWord(site.grid.granule) && IsWord(site.grid.per)
  }

  /** std::has_single_bit */
  predicate HasSingleBit(n: nat) {
    n > 0 && BitCeil(n) == n
  }

  /** The sizes that a pool accepts are the powers of two. */
  lemma SingleBitMeans(n: nat)
    ensures HasSingleBit(n) <==> exists k: nat :: n == Pow2(k)
  {
    BitCeilIsLeast(0, n);
    if k: nat :| n == Pow2(k) {
      Pow2Positive(k);
      assert BitCeil(n) <= Pow2(k);
    }
    if HasSingleBit(n) {
      assert n == Pow2(BitCeilFrom(0, n));
    }
  }

  /** Bytes of a chunk with that many slots, or None where the source throws. */
  function ChunkBytes(g: Grid, slotCount: nat): Option<nat>
    requires g.per > 0 && IsWord(g.granule) && IsWord(g.per) && IsWord(slotCount)
  {
    var padded := CheckedAdd(slotCount, g.per - 1);
    if padded.None? then None else
    GranulesAreWord(padded.value, g.per);
    CheckedMul(padded.value / g.per, g.granule)
  }

  lemma GranulesAreWord(n: nat, per: nat)
    requires per > 0 && IsWord(n)
    ensures n / per >= 0 && IsWord(n / per)
  {
    MulMonotone(1, per, n / per);
  }

  /** A chunk is as many granules as its slots need and no more; the request is refused
      exactly if rounding up, or the product, is no word. */
  lemma ChunkBytesIsLeast(g: Grid, slotCount: nat)
    requires g.per > 0 && IsWord(g.granule) && IsWord(g.per) && IsWord(slotCount)
    ensures ChunkBytes(g, slotCount).None? <==>
              !IsWord(slotCount + g.per - 1) || !IsWord(g.GranuleCount(slotCount) * g.granule)
    ensures ChunkBytes(g, slotCount).Some? ==> ChunkBytes(g, slotCount).value == g.GranuleCount(slotCount) * g.granule
    ensures Product(g.per, g.GranuleCount(slotCount)) >= slotCount
    ensures forall k: nat :: Product(g.per, k) >= slotCount ==> g.GranuleCount(slotCount) <= k
  {
    var m := (slotCount + g.per - 1) / g.per;
    if IsWord(slotCount + g.per - 1) {
      GranulesAreWord(slotCount + g.per - 1, g.per);
    }
    RoundsUp(slotCount, g.per);
    forall k: nat | Product(g.per, k) >= slotCount
      ensures m <= k
    {
      MulMonotone(k, m - 1, g.per);
    }
  }

  lemma RoundsUp(n: nat, d: nat)
    requires d > 0
    ensures var m := (n + d - 1) / d; m >= 0 && d * m >= n && (m > 0 ==> (m - 1) * d < n)
  {
    var x := n + d - 1;
    var m := x / d;
    assert x == m * d + x % d;
    assert (m - 1) * d == m * d - d;
  }

  /** Slots 0 .. n of a chunk as seeding leaves them on the free list: last first. */
  function Seeds(g: Grid, base: nat, n: nat): (s: seq<Addr>)
    requires g.per > 0
    ensures |s| == n
  {
    if n == 0 then [] else [g.At(base, n - 1)] + Seeds(g, base, n - 1)
  }

  lemma {:induction false} SeedsAt(g: Grid, base: nat, n: nat, i: nat)
    requires g.per > 0 && i < n
    ensures Seeds(g, base, n)[i] == g.At(base, n - 1 - i)
  {
    if i == 0 {
    } else {
      SeedsAt(g, base, n - 1, i - 1);
    }
  }

  /** The first k elements of a list, last one first. */
  function Reversed(s: seq<Addr>, k: nat): seq<Addr>
    requires k <= |s|
  {
    if k == 0 then [] else [s[k - 1]] + Reversed(s, k - 1)
  }

  lemma {:induction false} ReversedLength(s: seq<Addr>, k: nat)
    requires k <= |s|
    ensures |Reversed(s, k)| == k
  {
    if k == 0 {
    } else {
      ReversedLength(s, k - 1);
    }
  }

  lemma {:induction false} ReversedAt(s: seq<Addr>, k: nat, i: nat)
    requires i < k <= |s|
    ensures |Reversed(s, k)| == k && Reversed(s, k)[i] == s[k - 1 - i]
  {
    ReversedLength(s, k);
    if i == 0 {
    } else {
      ReversedAt(s, k - 1, i - 1);
    }
  }

  lemma {:induction false} ReversedTail(s: seq<Addr>, k: nat)
    requires k < |s|
    ensures Reversed(s, k + 1) == Reversed(s[1..], k) + [s[0]]
  {
    if k == 0 {
    } else {
      ReversedTail(s, k - 1);
      var r := Reversed(s[1..], k - 1);
      assert Reversed(s, k + 1) == [s[k]] + Reversed(s, k);
      assert Reversed(s[1..], k) == [s[k]] + r;
      hide Reversed;
      assert [s[k]] + (r + [s[0]]) == ([s[k]] + r) + [s[0]];
    }
  }

  // ---------- the steps ----------

  function Freed(c: Core, n: Addr): Core {
    if n == 0 || c.size == 0 then c else c.(free := [n] + c.free, held := c.held - {n}, size := c.size - 1)
  }

  function Parked(c: Core, n: Addr): Core {
    c.(parked := [n] + c.parked, held := c.held - {n})
  }

  function Drained(c: Core): Core {
    c.(free := Reversed(c.parked, |c.parked|) + c.free, parked := [],
       size := if c.size < |c.parked| then 0 else c.size - |c.parked|)
  }

  function Popped(c: Core): Core {
    if c.free == [] then c else c.(free := c.free[1..], held := c.held + {c.free[0]}, size := c.size + 1)
  }

  /** A request for a chunk fails: its size overflows, or no memory is to be had. */
  ghost predicate Refused(site: Site, k: nat, slotCount: nat)
    requires SiteOk(site) && IsWord(slotCount)
  {
    var bytes := ChunkBytes(site.grid, slotCount);
    bytes.None? || site.source(k, bytes.value).None?
  }

  ghost function AddedChunk(site: Site, c: Core, slotCount: nat): (r: (Core, bool))
    requires SiteOk(site) && IsWord(slotCount)
    ensures r.1 <==> !Refused(site, c.calls, slotCount)
    ensures r.0.nextGrowth == c.nextGrowth
    ensures if r.1 then |r.0.chunks| == |c.chunks| + 1 && |r.0.free| == |c.free| + slotCount &&
            r.0.capacity == c.capacity + slotCount
            else r.0.chunks == c.chunks && r.0.free == c.free && r.0.capacity == c.capacity
    ensures r.1 ==> r.0.chunks[..|c.chunks|] == c.chunks && r.0.chunks[|c.chunks|].count == slotCount
  {
    var bytes := ChunkBytes(site.grid, slotCount);
    if bytes.None? then (c, false) else
    var asked := c.(calls := c.calls + 1);
    var base := site.source(c.calls, bytes.value);
    if base.None? then (asked, false) else
    (asked.(chunks := c.chunks + [Slots(base.value, slotCount)],
          free := Seeds(site.grid, base.value, slotCount) + c.free,
            capacity := c.capacity + slotCount), true)
  }

  ghost predicate GrowRefused(site: Site, k: nat, nextGrowth: nat)
    requires SiteOk(site)
  {
    !IsWord(2 * nextGrowth) || Refused(site, k, Max(1, 2 * nextGrowth))
  }

  /** The next growth is doubled before the chunk is asked for. */
  ghost function Grown(site: Site, c: Core): (r: (Core, bool))
    requires SiteOk(site) && IsWord(c.nextGrowth)
    ensures IsWord(r.0.nextGrowth) && (r.1 <==> !GrowRefused(site, c.calls, c.nextGrowth))
  {
    if !IsWord(2 * c.nextGrowth) then (c, false) else
    AddedChunk(site, c.(nextGrowth := Max(1, 2 * c.nextGrowth)), Max(1, 2 * c.nextGrowth))
  }

  /** Makes a node free, if one is to be had: splices in the parked ones, brings the
      deferred first chunk, grows. */
  ghost function Supplied(site: Site, c: Core): (r: (Core, bool))
    requires SiteOk(site) && IsWord(c.nextGrowth)
    ensures IsWord(r.0.nextGrowth)
  {
    if c.free != [] then (c, true) else
    var d := Drained(c);
    if d.free != [] then (d, true) else
    var f := if d.capacity == 0 && d.nextGrowth != 0 then AddedChunk(site, d, d.nextGrowth) else (d, true);
    if !f.1 || f.0.free != [] || !site.dynamic then f else Grown(site, f.0)
  }

  ghost function Allocated(site: Site, c: Core): (r: (Core, Outcome))
    requires SiteOk(site) && IsWord(c.nextGrowth)
    ensures IsWord(r.0.nextGrowth)
  {
    var s := Supplied(site, c);
    if !s.1 then (s.0, BadAlloc)
    else if s.0.free != [] then (Popped(s.0), Got(s.0.free[0]))
    else (s.0, if site.dynamic then BadAlloc else Null)
  }

  // ---------- when a request fails ----------

  /** Every node is with a user. */
  ghost predicate Spent(c: Core) {
    c.free == [] && c.parked == []
  }

  ghost predicate Throws(site: Site, c: Core)
    requires SiteOk(site) && IsWord(c.nextGrowth)
  {
    Spent(c) &&
      if c.capacity == 0 then Refused(site, c.calls, c.nextGrowth) else site.dynamic && GrowRefused(site, c.calls, c.nextGrowth)
  }

  /** Allocation fails exactly when every node is with a user and no chunk can be had; a
      fixed pool that has its chunk answers null, every other failure is an exception. */
  lemma FailureIsGenuine(site: Site, c: Core)
    requires SiteOk(site) && IsWord(c.nextGrowth) && c.nextGrowth > 0
    ensures Allocated(site, c).1 == BadAlloc <==> Throws(site, c)
    ensures Allocated(site, c).1 == Null <==> Spent(c) && c.capacity > 0 && !site.dynamic
    ensures |Allocated(site, c).0.chunks| == |c.chunks| + (if Spent(c) && (c.capacity == 0 || site.dynamic) &&
              !Throws(site, c) then 1 else 0)
  {
    hide ChunkBytes;
    ReversedLength(c.parked, |c.parked|);
  }

  // ---------- whole sequences of operations ----------

  datatype Op = Allocate | Deallocate(n: Addr) | Push(n: Addr) | Drain

  datatype Answer = Allotted(out: Outcome) | Done

  /** One operation; a node that its caller does not hold is no business of the pool. */
  ghost function Perform(site: Site, c: Core, op: Op): (r: (Core, Answer))
    requires SiteOk(site) && IsWord(c.nextGrowth)
    ensures IsWord(r.0.nextGrowth)
  {
    match op
    case Allocate => var a := Allocated(site, c); (a.0, Allotted(a.1))
    case Deallocate(n) => (if n in c.held then Freed(c, n) else c, Done)
    case Push(n) => (if n in c.held then Parked(c, n) else c, Done)
    case Drain => (Drained(c), Done)
  }

  ghost function After(site: Site, c: Core, ops: seq<Op>): Core
    requires SiteOk(site) && IsWord(c.nextGrowth)
    decreases |ops|
  {
    if ops == [] then c else After(site, Perform(site, c, ops[0]).0, ops[1..])
  }

  ghost function Answers(site: Site, c: Core, ops: seq<Op>): seq<Answer>
    requires SiteOk(site) && IsWord(c.nextGrowth)
    decreases |ops|
  {
    if ops == [] then [] else [Perform(site, c, ops[0]).1] + Answers(site, Perform(site, c, ops[0]).0, ops[1..])
  }

  // ---------- lazy and eager construction ----------

  /** What the lazy constructor makes. */
  function LazyCore(poolSize: nat): Core {
    Core([], [], [], {}, 0, 0, poolSize, 0)
  }

  /** What the eager constructor makes; false where it throws. */
  ghost function EagerCore(site: Site, poolSize: nat): (r: (Core, bool))
    requires SiteOk(site) && IsWord(poolSize)
    ensures IsWord(r.0.nextGrowth)
  {
    AddedChunk(site, LazyCore(poolSize), poolSize)
  }

  /** Lazy equals eager: over every sequence of operations, a pool constructed lazily
      answers exactly as one constructed eagerly over the same source, and from the
      first allocation on both are in the same state. */
  lemma {:induction false} LazyEqualsEager(site: Site, poolSize: nat, ops: seq<Op>)
    requires SiteOk(site) && IsWord(poolSize) && poolSize > 0 && EagerCore(site, poolSize).1
    ensures Answers(site, LazyCore(poolSize), ops) == Answers(site, EagerCore(site, poolSize).0, ops)
    ensures Allocate in ops ==> After(site, LazyCore(poolSize), ops) == After(site, EagerCore(site, poolSize).0, ops)
    decreases |ops|
  {
    if ops == [] {
    } else {
      FirstOperation(site, poolSize, ops[0]);
      hide AddedChunk, Perform;
      if ops[0] != Allocate {
        LazyEqualsEager(site, poolSize, ops[1..]);
        assert Allocate in ops ==> Allocate in ops[1..];
      }
    }
  }

  // The first allocation brings the chunk and goes on as if it had been there; before
  // it there is nothing to operate on.
  lemma FirstOperation(site: Site, poolSize: nat, op: Op)
    requires SiteOk(site) && IsWord(poolSize) && poolSize > 0 && EagerCore(site, poolSize).1
    ensures op == Allocate ==> Perform(site, LazyCore(poolSize), op) == Perform(site, EagerCore(site, poolSize).0, op)
    ensures op != Allocate ==>
              && Perform(site, LazyCore(poolSize), op) == (LazyCore(poolSize), Done)
              && Perform(site, EagerCore(site, poolSize).0, op) == (EagerCore(site, poolSize).0, Done)
  {
    hide ChunkBytes;
    var lazy, eager := LazyCore(poolSize), EagerCore(site, poolSize).0;
    assert Drained(lazy) == lazy && Drained(eager) == eager;
    assert op == Allocate ==> Supplied(site, lazy) == (eager, true) == Supplied(site, eager);
  }

  // ---------- growth ----------

  /** Slots of all chunks together. */
  function Total(chunks: seq<Slots>): nat {
    if chunks == [] then 0 else Total(chunks[..|chunks| - 1]) + chunks[|chunks| - 1].count
  }

  /** The first chunk has `first` slots, every other one at least twice as many as the one
      before it, and the next one will have more than the last. */
  ghost predicate GrowthSound(first: nat, chunks: seq<Slots>, capacity: nat, nextGrowth: nat) {
    && 0 < first <= nextGrowth && IsWord(nextGrowth) && capacity == Total(chunks)
    && (chunks == [] ==> nextGrowth == first)
    && (chunks != [] ==> chunks[0].count == first && nextGrowth >= chunks[|chunks| - 1].count)
    && (forall i :: 0 < i < |chunks| ==> chunks[i].count >= 2 * chunks[i - 1].count)
  }

  lemma GrowthMore(first: nat, chunks: seq<Slots>, more: seq<Slots>, capacity: nat, nextGrowth: nat)
    requires GrowthSound(first, chunks, capacity, nextGrowth)
    requires |more| == |chunks| + 1 && more[..|chunks|] == chunks
    requires more[|chunks|].count == (if chunks == [] then nextGrowth else 2 * nextGrowth)
    requires IsWord(more[|chunks|].count)
    ensures GrowthSound(first, more, capacity + more[|chunks|].count, more[|chunks|].count)
  {
    forall i | 0 < i < |more|
      ensures more[i].count >= 2 * more[i - 1].count
    {
      assert more[i - 1] == chunks[i - 1];
      assert i < |chunks| ==> more[i] == chunks[i];
    }
    if chunks != [] {
      assert more[0] == chunks[0];
    }
  }

  // A grow that fails leaves the next one doubled.
  lemma GrowthWaits(first: nat, chunks: seq<Slots>, capacity: nat, nextGrowth: nat)
    requires GrowthSound(first, chunks, capacity, nextGrowth) && chunks != [] && IsWord(2 * nextGrowth)
    ensures GrowthSound(first, chunks, capacity, 2 * nextGrowth)
  {
  }

  lemma HasSlots(first: nat, chunks: seq<Slots>, capacity: nat, nextGrowth: nat)
    requires GrowthSound(first, chunks, capacity, nextGrowth)
    ensures chunks == [] <==> capacity == 0
  {
    if chunks == [] {
      assert Total(chunks) == 0;
    } else {
      TotalPositive(chunks);
    }
  }

  lemma {:induction false} TotalPositive(chunks: seq<Slots>)
    requires chunks != [] && chunks[0].count > 0
    ensures Total(chunks) > 0
  {
    if |chunks| > 1 {
      TotalPositive(chunks[..|chunks| - 1]);
    }
  }

  lemma CapacityStep(first: nat, p: nat, earlier: nat, last: nat)
    ensures first * (2 * p - 1) == first * (p - 1) + first * p
    ensures earlier >= first * (p - 1) && last >= first * p ==>
              && earlier + last >= first * (2 * p - 1)
              && (earlier + last == first * (2 * p - 1) <==> earlier == first * (p - 1) && last == first * p)
  {
  }

  /** The i-th chunk has the first one's slots doubled i times. */
  predicate DoubledTo(first: nat, c: Slots, i: nat) {
    c.count == first * Pow2(i)
  }

  /** Each chunk is just twice the one before. */
  ghost predicate Doubling(first: nat, chunks: seq<Slots>) {
    forall i :: 0 <= i < |chunks| ==> DoubledTo(first, chunks[i], i)
  }

  lemma DoublingMore(first: nat, chunks: seq<Slots>)
    requires chunks != []
    ensures Doubling(first, chunks) <==>
              (Doubling(first, chunks[..|chunks| - 1]) && DoubledTo(first, chunks[|chunks| - 1], |chunks| - 1))
  {
    hide DoubledTo;
    var n, earlier := |chunks| - 1, chunks[..|chunks| - 1];
    assert forall i :: 0 <= i < n ==> earlier[i] == chunks[i];
    if Doubling(first, earlier) && DoubledTo(first, chunks[n], n) {
      forall i | 0 <= i < |chunks|
        ensures DoubledTo(first, chunks[i], i)
      {
        assert i < n ==> DoubledTo(first, earlier[i], i);
      }
    }
  }

  lemma NextPow2(first: nat, n: nat)
    ensures Pow2(n + 1) == 2 * Pow2(n) && first * Pow2(n + 1) == 2 * (first * Pow2(n)) && Pow2(0) == 1
    ensures first * Pow2(0) == first
  {
  }

  /** A pool of n chunks has at least first * (2^n - 1) slots, and exactly so many if and
      only if each chunk is just twice the one before. */
  lemma {:induction false} CapacityByChunks(first: nat, chunks: seq<Slots>)
    requires first > 0 && (chunks != [] ==> chunks[0].count == first)
    requires forall i :: 0 < i < |chunks| ==> chunks[i].count >= 2 * chunks[i - 1].count
    ensures Total(chunks) >= first * (Pow2(|chunks|) - 1)
    ensures Total(chunks) == first * (Pow2(|chunks|) - 1) <==> Doubling(first, chunks)
    ensures chunks != [] ==> chunks[|chunks| - 1].count >= first * Pow2(|chunks| - 1)
  {
    hide Pow2, Doubling;
    NextPow2(first, 0);
    if chunks == [] {
      NoChunks(first);
    } else {
      var n, earlier := |chunks| - 1, chunks[..|chunks| - 1];
      assert forall i :: 0 <= i < n ==> earlier[i] == chunks[i];
      CapacityByChunks(first, earlier);
      if n > 0 {
        NextPow2(first, n - 1);
        assert earlier[n - 1] == chunks[n - 1];
      }
      NextPow2(first, n);
      CapacityStep(first, Pow2(n), Total(earlier), chunks[n].count);
      DoublingMore(first, chunks);
    }
  }

  lemma NoChunks(first: nat)
    ensures Doubling(first, []) && Total([]) == 0 && first * (Pow2(0) - 1) == 0
  {
  }

  // ---------- growth over a history ----------

  /** What an operation makes of a grow: None if it makes none, or one that stops before
      the next growth is doubled; else whether the grow succeeds. */
  ghost function Attempt(site: Site, c: Core, op: Op): Option<bool>
    requires SiteOk(site) && IsWord(c.nextGrowth)
  {
    if op == Allocate && Spent(c) && c.capacity > 0 && site.dynamic && IsWord(2 * c.nextGrowth)
    then Some(!Refused(site, c.calls, Max(1, 2 * c.nextGrowth))) else None
  }

  ghost function Attempts(site: Site, c: Core, ops: seq<Op>): seq<bool>
    requires SiteOk(site) && IsWord(c.nextGrowth)
    decreases |ops|
  {
    if ops == [] then [] else
    var a := Attempt(site, c, ops[0]);
    (if a.Some? then [a.value] else []) + Attempts(site, Perform(site, c, ops[0]).0, ops[1..])
  }

  /** A grow succeeded after one that had failed. */
  ghost predicate Lagged(a: seq<bool>) {
    exists i, j :: 0 <= i < j < |a| && !a[i] && a[j]
  }

  function Successes(a: seq<bool>): nat {
    if a == [] then 0 else Successes(a[..|a| - 1]) + (if a[|a| - 1] then 1 else 0)
  }

  /** What the chunks of the successful grows have, in chunks of the first size. */
  function Weight(a: seq<bool>): nat {
    if a == [] then 0 else Weight(a[..|a| - 1]) + (if a[|a| - 1] then Pow2(|a|) else 0)
  }

  lemma {:induction false} SuccessesBound(a: seq<bool>)
    ensures Successes(a) <= |a| && (Successes(a) == |a| <==> forall i :: 0 <= i < |a| ==> a[i])
  {
    if a == [] {
    } else {
      var b := a[..|a| - 1];
      SuccessesBound(b);
      assert forall i :: 0 <= i < |b| ==> b[i] == a[i];
    }
  }

  lemma LaggedMore(a: seq<bool>)
    requires a != []
    ensures Lagged(a) <==> Lagged(a[..|a| - 1]) || (a[|a| - 1] && exists i :: 0 <= i < |a| - 1 && !a[i])
  {
    var b := a[..|a| - 1];
    assert forall i :: 0 <= i < |b| ==> b[i] == a[i];
    if Lagged(b) {
      var i, j :| 0 <= i < j < |b| && !b[i] && b[j];
      assert !a[i] && a[j];
    }
    if Lagged(a) {
      var i, j :| 0 <= i < j < |a| && !a[i] && a[j];
      assert j < |b| ==> !b[i] && b[j];
    }
  }

  /** Successful grows weigh at least 2^(k+1) - 2 if they are k, and just so much if and
      only if none of them comes after a failed one. */
  lemma {:induction false} WeightExact(a: seq<bool>)
    ensures 1 + Weight(a) >= Pow2(1 + Successes(a)) - 1
    ensures 1 + Weight(a) == Pow2(1 + Successes(a)) - 1 <==> !Lagged(a)
  {
    if a == [] {
      assert Pow2(1) == 2 * Pow2(0) && Pow2(0) == 1;
    } else {
      var b := a[..|a| - 1];
      WeightExact(b);
      LaggedMore(a);
      SuccessesBound(b);
      assert forall i :: 0 <= i < |b| ==> b[i] == a[i];
      var k := Successes(b);
      assert Pow2(2 + k) == 2 * Pow2(1 + k);
      if k < |b| {
        Pow2Monotone(2 + k, |a|);
        Pow2Positive(1 + k);
      }
      hide Pow2, Lagged;
    }
  }

  /** Where a pool stands after the grows of `a`. */
  ghost predicate HistoryOk(first: nat, c: Core, a: seq<bool>) {
    && first > 0 && (c.capacity == 0 <==> c.chunks == [])
    && (c.chunks == [] ==> a == [] && c.nextGrowth == first && c.free == [] && c.parked == [] && c.held == {})
    && (c.chunks != [] ==>
          && c.nextGrowth == first * Pow2(|a|)
          && |c.chunks| == 1 + Successes(a) && c.capacity == first * (1 + Weight(a)))
  }

  lemma OneMoreAttempt(first: nat, a: seq<bool>, b: bool)
    ensures Successes(a + [b]) == Successes(a) + (if b then 1 else 0)
    ensures Weight(a + [b]) == Weight(a) + (if b then Pow2(|a| + 1) else 0)
    ensures first * Pow2(|a| + 1) == 2 * (first * Pow2(|a|))
    ensures first * (1 + Weight(a) + Pow2(|a| + 1)) == first * (1 + Weight(a)) + first * Pow2(|a| + 1)
  {
    assert (a + [b])[..|a|] == a;
    NextPow2(first, |a|);
    hide Pow2;
    Distributes(first, 1 + Weight(a), Pow2(|a| + 1));
  }

  lemma Distributes(a: nat, b: nat, c: nat)
    ensures a * (b + c) == a * b + a * c
  {
  }

  lemma HistoryStep(site: Site, first: nat, c: Core, a: seq<bool>, op: Op)
    requires SiteOk(site) && IsWord(c.nextGrowth) && HistoryOk(first, c, a)
    ensures var t := Attempt(site, c, op); HistoryOk(first, Perform(site, c, op).0,
                if t.Some? then a + [t.value] else a)
  {
    hide Refused, Weight, Successes, Pow2;
    ReversedLength(c.parked, |c.parked|);
    OneMoreAttempt(first, a, true);
    OneMoreAttempt(first, a, false);
    StartOfHistory(first);
    if op == Allocate && c.chunks != [] {
      NextPositive(first, a);
    }
    hide AddedChunk;
  }

  lemma StartOfHistory(first: nat)
    ensures Weight([]) == 0 && Successes([]) == 0 && Pow2(0) == 1 && first * Pow2(0) == first
  {
  }

  lemma NextPositive(first: nat, a: seq<bool>)
    requires first > 0
    ensures first * Pow2(|a|) > 0
  {
    Pow2Positive(|a|);
    MulMonotone(1, Pow2(|a|), first);
  }

  lemma {:induction false} HistoryKept(site: Site, first: nat, c: Core, a: seq<bool>, ops: seq<Op>)
    requires SiteOk(site) && IsWord(c.nextGrowth) && HistoryOk(first, c, a)
    ensures HistoryOk(first, After(site, c, ops), a + Attempts(site, c, ops))
    decreases |ops|
  {
    hide HistoryOk, Perform, Attempt;
    if ops == [] {
      assert a + [] == a;
    } else {
      var t, rest := Attempt(site, c, ops[0]), Attempts(site, Perform(site, c, ops[0]).0, ops[1..]);
      HistoryStep(site, first, c, a, ops[0]);
      HistoryKept(site, first, Perform(site, c, ops[0]).0, if t.Some? then a + [t.value] else a, ops[1..]);
      assert t.Some? ==> a + [t.value] + rest == a + ([t.value] + rest);
      assert a + rest == a + ([] + rest);
    }
  }

  lemma ExactByHistory(first: nat, c: Core, a: seq<bool>)
    requires HistoryOk(first, c, a)
    ensures |c.chunks| == (if c.chunks == [] then 0 else 1 + Successes(a))
    ensures c.capacity >= first * (Pow2(|c.chunks|) - 1)
    ensures c.capacity == first * (Pow2(|c.chunks|) - 1) <==> !Lagged(a)
  {
    StartOfHistory(first);
    if c.chunks != [] {
      WeightExact(a);
      var w, p := 1 + Weight(a), Pow2(1 + Successes(a)) - 1;
      MulMonotone(p, w, first);
      MulMonotone(p + 1, w, first);
      assert (p + 1) * first == p * first + first && w * first == first * w && p * first == first * p;
    }
    hide Weight, Successes, Pow2, Lagged;
  }

  lemma HistoryStarts(site: Site, poolSize: nat)
    requires SiteOk(site) && IsWord(poolSize) && poolSize > 0
    ensures HistoryOk(poolSize, LazyCore(poolSize), [])
    ensures var eager := EagerCore(site, poolSize); eager.1 ==> HistoryOk(poolSize, eager.0, []) && eager.0.chunks != []
  {
    StartOfHistory(poolSize);
    hide AddedChunk, Refused;
  }

  lemma FromStart(site: Site, first: nat, c: Core, ops: seq<Op>)
    requires SiteOk(site) && IsWord(c.nextGrowth) && HistoryOk(first, c, [])
    ensures var e, a := After(site, c, ops), Attempts(site, c, ops);
            && |e.chunks| == (if e.chunks == [] then 0 else 1 + Successes(a))
            && e.capacity >= first * (Pow2(|e.chunks|) - 1)
            && (e.capacity == first * (Pow2(|e.chunks|) - 1) <==> !Lagged(a))
  {
    hide HistoryOk, After, Attempts, Lagged, Pow2, Successes;
    HistoryKept(site, first, c, [], ops);
    assert [] + Attempts(site, c, ops) == Attempts(site, c, ops);
    ExactByHistory(first, After(site, c, ops), Attempts(site, c, ops));
  }

  /** Over every sequence of operations, a pool that has n chunks has at least
      first * (2^n - 1) slots, and exactly so many if and only if no grow succeeded after
      one that had failed once the next growth was doubled. */
  lemma CapacityByHistory(site: Site, poolSize: nat, ops: seq<Op>)
    requires SiteOk(site) && IsWord(poolSize) && poolSize > 0
    ensures var c, a := After(site, LazyCore(poolSize), ops), Attempts(site, LazyCore(poolSize), ops);
            && c.capacity >= poolSize * (Pow2(|c.chunks|) - 1)
            && (c.capacity == poolSize * (Pow2(|c.chunks|) - 1) <==> !Lagged(a))
    ensures EagerCore(site, poolSize).1 ==>
              var c, a := After(site, EagerCore(site, poolSize).0, ops),
                Attempts(site, EagerCore(site, poolSize).0, ops);
              && |c.chunks| == 1 + Successes(a) && c.capacity >= poolSize * (Pow2(|c.chunks|) - 1)
              && (c.capacity == poolSize * (Pow2(|c.chunks|) - 1) <==> !Lagged(a))
  {
    hide HistoryOk, After, Attempts, EagerCore, Lagged, Pow2, Successes;
    var lazy, eager := LazyCore(poolSize), EagerCore(site, poolSize);
    HistoryStarts(site, poolSize);
    FromStart(site, poolSize, lazy, ops);
    if eager.1 {
      FromStart(site, poolSize, eager.0, ops);
      ChunksStay(site, eager.0, ops);
    }
  }

  lemma {:induction false} ChunksStay(site: Site, c: Core, ops: seq<Op>)
    requires SiteOk(site) && IsWord(c.nextGrowth) && c.chunks != []
    ensures After(site, c, ops).chunks != []
    decreases |ops|
  {
    hide AddedChunk, Refused;
    if ops == [] {
    } else {
      ChunksStay(site, Perform(site, c, ops[0]).0, ops[1..]);
    }
  }

  // ---------- a failed grow leaves its trace ----------

  /** A source that refuses its second request and answers the others, one granule each. */
  function Reluctant(): Source {
    (k: nat, n: nat) => ReluctantAnswer(k, n)
  }

  function ReluctantAnswer(k: nat, n: nat): Option<nat> {
    if k == 1 || n > 4096 then None else Some(PageAt(k))
  }

  function PageAt(k: nat): nat {
    4096 * (k + 1)
  }

  // 64-byte nodes in granules of one page.
  function PageGrid(): Grid {
    Grid(4096, 63, 16, 64)
  }

  lemma OneGranule(n: nat)
    requires 1 <= n <= 63
    ensures ChunkBytes(PageGrid(), n) == Some(4096)
  {
  }

  // The pool after its constructor, its first, second and third allocation.
  function Trace(k: nat): Core {
    if k == 0 then Core([Slots(4096, 1)], [4112], [], {}, 0, 1, 1, 1)
    else if k == 1 then Core([Slots(4096, 1)], [], [], {4112}, 1, 1, 1, 1)
    else if k == 2 then Core([Slots(4096, 1)], [], [], {4112}, 1, 1, 2, 2)
    else Core([Slots(4096, 1), Slots(12288, 4)], [12432, 12368, 12304], [], {4112, 12496}, 2, 5, 4, 3)
  }

  // The site of the trace, and what it answers.
  lemma TraceSite(site: Site)
    requires site == Site(PageGrid(), true, Reluctant())
    ensures SiteOk(site) && site.dynamic
    ensures site.source(0, 4096) == Some(4096) && site.source(1, 4096) == None && site.source(2, 4096) == Some(12288)
    ensures ChunkBytes(site.grid, 1) == ChunkBytes(site.grid, 2) == ChunkBytes(site.grid, 4) == Some(4096)
  {
    OneGranule(1);
    OneGranule(2);
    OneGranule(4);
  }

  lemma TraceSeeds(g: Grid)
    requires g == PageGrid()
    ensures Seeds(g, 4096, 1) == [4112]
    ensures Seeds(g, 12288, 4) == [12496, 12432, 12368, 12304]
  {
    assert Seeds(g, 12288, 1) == [12304];
    assert Seeds(g, 12288, 2) == [12368] + Seeds(g, 12288, 1);
    assert Seeds(g, 12288, 3) == [12432] + Seeds(g, 12288, 2);
    assert Seeds(g, 12288, 4) == [12496] + Seeds(g, 12288, 3);
  }

  lemma TraceStart(site: Site)
    requires site == Site(PageGrid(), true, Reluctant())
    ensures SiteOk(site) && EagerCore(site, 1) == (Trace(0), true)
    ensures Perform(site, Trace(0), Allocate) == (Trace(1), Allotted(Got(4112)))
  {
    TraceSite(site);
    TraceSeeds(site.grid);
    hide ChunkBytes, Reluctant, PageGrid, Seeds;
    var none: seq<Addr> := [];
    assert [4112] + none == [4112];
    assert AddedChunk(site, LazyCore(1), 1).0 == Trace(0);
    hide AddedChunk, SiteOk;
    assert Popped(Trace(0)) == Trace(1);
  }

  lemma TraceFailure(site: Site)
    requires site == Site(PageGrid(), true, Reluctant())
    ensures SiteOk(site) && Perform(site, Trace(1), Allocate) == (Trace(2), Allotted(BadAlloc))
  {
    TraceSite(site);
    hide ChunkBytes, Reluctant, PageGrid, Seeds;
    assert Drained(Trace(1)) == Trace(1);
    assert Grown(site, Trace(1)).0 == Trace(2);
  }

  lemma TraceSuccess(site: Site)
    requires site == Site(PageGrid(), true, Reluctant())
    ensures SiteOk(site) && Perform(site, Trace(2), Allocate) == (Trace(3), Allotted(Got(12496)))
  {
    TraceSite(site);
    TraceSeeds(site.grid);
    hide ChunkBytes, Reluctant, PageGrid, Seeds;
    assert Drained(Trace(2)) == Trace(2);
    var four, none: seq<Addr> := [12496, 12432, 12368, 12304], [];
    assert four + none == four;
    var grown := Trace(2).(chunks := [Slots(4096, 1), Slots(12288, 4)], free := four, capacity := 5, nextGrowth := 4,
        calls := 3);
    assert Grown(site, Trace(2)).0 == grown;
    hide AddedChunk, Grown;
    assert Popped(grown) == Trace(3);
  }

  lemma Three(site: Site, c0: Core, c1: Core, c2: Core, c3: Core, a1: Answer, a2: Answer, a3: Answer)
    requires SiteOk(site) && IsWord(c0.nextGrowth) && IsWord(c1.nextGrowth) && IsWord(c2.nextGrowth)
    requires Perform(site, c0, Allocate) == (c1, a1) && Perform(site, c1, Allocate) == (c2, a2)
    requires Perform(site, c2, Allocate) == (c3, a3)
    ensures IsWord(c3.nextGrowth)
    ensures After(site, c0, [Allocate, Allocate, Allocate]) == c3
    ensures Answers(site, c0, [Allocate, Allocate, Allocate]) == [a1, a2, a3]
  {
    hide Perform, SiteOk;
    var ops: seq<Op> := [Allocate, Allocate, Allocate];
    assert ops[1..] == [Allocate, Allocate] && ops[1..][1..] == [Allocate] && ops[1..][1..][1..] == [];
    assert After(site, c2, [Allocate]) == c3 && After(site, c1, [Allocate, Allocate]) == c3;
    assert Answers(site, c2, [Allocate]) == [a3] && Answers(site, c1, [Allocate, Allocate]) == [a2, a3];
  }

  lemma OneIsPower()
    ensures HasSingleBit(1)
  {
    assert Pow2(0) == 1;
  }

  lemma PageLayout()
    ensures GridOf(Layout(64, 3, 12)) == PageGrid()
  {
    PageOfNodes();
    hide Layout.Granule, Layout.PerGranule;
    assert Pow2(3) == 8;
  }

  /** A grow that succeeds after a failed one: a pool of one slot asks for two and is
      refused, then asks for four and gets them. Its capacity is five after one grow,
      where doubling alone would make it three. */
  lemma GrowthAfterFailure(site: Site)
    requires site == Site(GridOf(Layout(64, 3, 12)), true, Reluctant())
    ensures SiteOk(site) && HasSingleBit(1) && EagerCore(site, 1).1
    ensures var ops := [Allocate, Allocate, Allocate];
            var end := After(site, EagerCore(site, 1).0, ops);
            && Answers(site, EagerCore(site, 1).0, ops) ==
                 [Allotted(Got(4112)), Allotted(BadAlloc), Allotted(Got(12496))]
            && end.capacity == 5 && |end.chunks| == 2
  {
    hide Layout.Granule, Layout.PerGranule, Layout.HeaderOffset, Pow2, BitCeil, GridOf, HasSingleBit, SiteOk, EagerCore;
    hide Perform, After, Answers;
    OneIsPower();
    PageLayout();
    TraceStart(site);
    TraceFailure(site);
    TraceSuccess(site);
    Three(site, Trace(0), Trace(1), Trace(2), Trace(3), Allotted(Got(4112)), Allotted(BadAlloc), Allotted(Got(12496)));
  }
}
